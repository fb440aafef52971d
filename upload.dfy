/**
 * The orchestration bookkeeping of the split uploader (js/Ext.ux.upload.Uploader.js):
 * configuration merged into the per-backend parameter maps, the role table that
 * decides how a component is bound, the registry of connectors, the URL fan-out,
 * the lazily created log panel and the translation of connector events.
 */
module Upload {
  import opened Common
  import opened UploadLog

  /** A JavaScript value as far as the configuration maps need one. */
  datatype Value = Str(s: string) | Num(n: int) | Flag(b: bool) | Undefined

  /**
   * The constructor's `config` object: None for a key the caller did not pass,
   * Some(v) for one it did (possibly with `undefined` as its value).
   */
  datatype Config = Config(
    url: Option<Value>,
    swfUrl: Option<Value>,
    maxFiles: Option<Value>,
    maxFileSize: Option<Value>,
    allowedFileTypes: Option<Value>,
    enableLogPanel: Option<bool>,
    swfParams: Option<map<string, Value>>,
    html5Params: Option<map<string, Value>>)

  function GetOr<T>(o: Option<T>, default: T): T {
    match o
    case Some(v) => v
    case None => default
  }

  /** How `init` binds a component. */
  datatype Role = Trigger | DropZone | Ignored

  const TriggerXTypes: seq<string> := ["button", "menuitem"]
  const DropZoneXTypes: seq<string> := ["dataview", "panel", "imagebrowser", "toolbartabpanel", "grid"]

  /**
   * `init`'s classification: a trigger (swfupload button, bound on afterrender)
   * when the xtype is in the trigger list, else a drop zone (html5, bound on
   * render) when it is in the drop-zone list, else nothing at all.
   */
  function Classify(xtype: string): (r: Role)
    ensures r == Trigger <==> xtype == "button" || xtype == "menuitem"
    ensures r == DropZone <==>
      xtype in {"dataview", "panel", "imagebrowser", "toolbartabpanel", "grid"} && xtype !in {"button", "menuitem"}
    ensures r == Ignored <==>
      xtype !in {"button", "menuitem", "dataview", "panel", "imagebrowser", "toolbartabpanel", "grid"}
  {
    if xtype in TriggerXTypes then Trigger
    else if xtype in DropZoneXTypes then DropZone
    else Ignored
  }

  /** The five top-level settings the constructor forces onto `swfParams`. */
  function SwfOverrides(url: Value, swfUrl: Value, allowed: Value, maxFileSize: Value, maxFiles: Value): map<string, Value> {
    map["url" := url, "swfUrl" := swfUrl, "allowedFileTypes" := allowed,
        "maxFileSize" := maxFileSize, "maxFiles" := maxFiles]
  }

  /** The four top-level settings the constructor offers `html5Params` as defaults. */
  function Html5Defaults(url: Value, allowed: Value, maxFileSize: Value, maxFiles: Value): map<string, Value> {
    map["url" := url, "allowedFileTypes" := allowed, "maxFileSize" := maxFileSize, "maxFiles" := maxFiles]
  }

  /** `Ext.apply(target, source)`: every key of `source` is copied over, overwriting. */
  function Apply(target: map<string, Value>, source: map<string, Value>): (r: map<string, Value>)
    ensures r.Keys == target.Keys + source.Keys
    ensures forall k :: k in source ==> r[k] == source[k]
    ensures forall k :: k in target && k !in source ==> r[k] == target[k]
  {
    target + source
  }

  /**
   * `Ext.applyIf(target, source)`: a key of `source` is copied only where the
   * target has no defined value for it (missing, or present as `undefined`).
   */
  function ApplyIf(target: map<string, Value>, source: map<string, Value>): (r: map<string, Value>)
    ensures r.Keys == target.Keys + source.Keys
    ensures forall k :: k in target && target[k] != Undefined ==> r[k] == target[k]
    ensures forall k :: k in source && (k !in target || target[k] == Undefined) ==> r[k] == source[k]
    ensures forall k :: k in target && k !in source ==> r[k] == target[k]
  {
    map k | k in target.Keys + source.Keys ::
      if k in source && (k !in target || target[k] == Undefined) then source[k] else target[k]
  }

  /** What a connector was built with: the backend, its `url`, whether it holds an `swf` object. */
  datatype ConnectorKind = SwfConnector | Html5Connector

  datatype Connection = Connection(kind: ConnectorKind, url: Value, hasSwf: bool, params: map<string, Value>)

  function UrlOf(params: map<string, Value>): Value {
    if "url" in params then params["url"] else Undefined
  }

  /** The registry after `setUploadUrl(u)`: every connector's `url` is `u`, all else as it was. */
  function WithUrl(conns: seq<Connection>, u: string): (r: seq<Connection>)
    ensures |r| == |conns|
    ensures forall i :: 0 <= i < |r| ==>
      r[i].url == Str(u) && r[i].kind == conns[i].kind && r[i].hasSwf == conns[i].hasSwf && r[i].params == conns[i].params
  {
    seq(|conns|, i requires 0 <= i < |conns| => conns[i].(url := Str(u)))
  }

  /** The `swf.setUploadURL(u)` calls `setUploadUrl` makes, as positions in the registry. */
  datatype SwfCall = SetUploadURL(conn: nat, url: string)

  /** One call for each connector from `from` on that holds an `swf`, in registry order. */
  function SwfCallsFrom(conns: seq<Connection>, from: nat, u: string): seq<SwfCall>
    requires from <= |conns|
    decreases |conns| - from
  {
    if from == |conns| then []
    else (if conns[from].hasSwf then [SetUploadURL(from, u)] else []) + SwfCallsFrom(conns, from + 1, u)
  }

  /**
   * Exactly the connectors with an `swf` get a call, each once, in ascending
   * position, all with the new URL.
   */
  lemma {:induction false} SwfCallsExact(conns: seq<Connection>, from: nat, u: string)
    requires from <= |conns|
    ensures forall c :: c in SwfCallsFrom(conns, from, u) ==>
      c.url == u && from <= c.conn < |conns| && conns[c.conn].hasSwf
    ensures forall i :: from <= i < |conns| && conns[i].hasSwf ==> SetUploadURL(i, u) in SwfCallsFrom(conns, from, u)
    ensures forall a, b :: 0 <= a < b < |SwfCallsFrom(conns, from, u)| ==>
      SwfCallsFrom(conns, from, u)[a].conn < SwfCallsFrom(conns, from, u)[b].conn
    decreases |conns| - from
  {
    if from < |conns| {
      SwfCallsExact(conns, from + 1, u);
    }
  }

  lemma SwfCallsStep(conns: seq<Connection>, from: nat, u: string)
    requires from < |conns|
    ensures SwfCallsFrom(conns, from, u) ==
      (if conns[from].hasSwf then [SetUploadURL(from, u)] else []) + SwfCallsFrom(conns, from + 1, u)
  {
  }

  /** The events the uploader fires to its observers. */
  datatype Event =
    | BeforeUpload(conn: Connection, fileCount: int)
    | FileUpload(conn: Connection, file: FileInfo)

  class Uploader {
    var url: Value
    var swfUrl: Value
    var maxFiles: Value
    var maxFileSize: Value
    var allowedFileTypes: Value
    var enableLogPanel: bool
    var swfParams: map<string, Value>
    var html5Params: map<string, Value>
    var connections: seq<Connection>
    /** Whether some drop zone flagged `uploadLogPanelTarget` has set `dialogEl`. */
    var dialogEl: bool
    var logPanel: LogPanel?
    var fired: seq<Event>
    var swfCalls: seq<SwfCall>

    ghost predicate Valid()
      reads this, logPanel
    {
      logPanel != null ==> logPanel.Valid()
    }

    /** The log panel's queue, empty while no panel exists. */
    ghost function PanelQueue(): seq<Entry>
      reads this, logPanel
    {
      if logPanel == null then [] else logPanel.queue
    }

    /** The ids of the bars the panel shows, none while no panel exists (as a new panel starts). */
    ghost function PanelDisplayed(): seq<string>
      reads this, logPanel
    {
      if logPanel == null then [] else logPanel.displayed
    }

    /** The panel's status, None while no panel exists. */
    ghost function PanelStatus(): Option<StatusLine>
      reads this, logPanel
    {
      if logPanel == null then None else logPanel.status
    }

    /** Whether the panel's frame is shown, false while no panel exists. */
    ghost function PanelVisible(): bool
      reads this, logPanel
    {
      logPanel != null && logPanel.visible
    }

    /** `getLogPanel` keeps the panel it has and creates one only when there is none. */
    twostate predicate PanelKept()
      reads this
    {
      && (old(logPanel) != null ==> logPanel == old(logPanel))
      && (old(logPanel) == null && logPanel != null ==> fresh(logPanel) && logPanel.inDialog == dialogEl)
    }

    /**
     * The constructor: the config is applied over the prototype defaults
     * (url "", swfUrl "", maxFiles 5, maxFileSize 1024, allowedFileTypes "*.*",
     * enableLogPanel true); `swfParams` gets the five top-level settings forced
     * in; `html5Params` gets four of them only where it has none.
     */
    constructor (config: Config)
      ensures url == GetOr(config.url, Str(""))
      ensures swfUrl == GetOr(config.swfUrl, Str(""))
      ensures maxFiles == GetOr(config.maxFiles, Num(5))
      ensures maxFileSize == GetOr(config.maxFileSize, Num(1024))
      ensures allowedFileTypes == GetOr(config.allowedFileTypes, Str("*.*"))
      ensures enableLogPanel == GetOr(config.enableLogPanel, true)
      ensures swfParams == Apply(GetOr(config.swfParams, map[]), SwfOverrides(url, swfUrl, allowedFileTypes, maxFileSize, maxFiles))
      ensures html5Params == ApplyIf(GetOr(config.html5Params, map[]), Html5Defaults(url, allowedFileTypes, maxFileSize, maxFiles))
      ensures connections == [] && !dialogEl && logPanel == null && fired == [] && swfCalls == []
      ensures Valid()
    {
      var u := GetOr(config.url, Str(""));
      var su := GetOr(config.swfUrl, Str(""));
      var mf := GetOr(config.maxFiles, Num(5));
      var ms := GetOr(config.maxFileSize, Num(1024));
      var ft := GetOr(config.allowedFileTypes, Str("*.*"));
      url, swfUrl, maxFiles, maxFileSize, allowedFileTypes := u, su, mf, ms, ft;
      enableLogPanel := GetOr(config.enableLogPanel, true);
      connections := [];
      var swf := GetOr(config.swfParams, map[]);
      swfParams := Apply(swf, SwfOverrides(u, su, ft, ms, mf));
      var html5 := GetOr(config.html5Params, map[]);
      html5Params := ApplyIf(html5, Html5Defaults(u, ft, ms, mf));
      dialogEl := false;
      logPanel := null;
      fired := [];
      swfCalls := [];
    }

    /**
     * `setDropZone(cmp)`: an html5 connector built from `html5Params` is
     * appended to the registry; a component flagged `uploadLogPanelTarget` becomes `dialogEl`.
     */
    method SetDropZone(cmp: Component)
      modifies this`connections, this`dialogEl
      ensures connections == old(connections) + [Connection(Html5Connector, UrlOf(html5Params), false, html5Params)]
      ensures dialogEl == (old(dialogEl) || cmp.uploadLogPanelTarget)
    {
      if cmp.uploadLogPanelTarget {
        dialogEl := true;
      }
      connections := connections + [Connection(Html5Connector, UrlOf(html5Params), false, html5Params)];
    }

    /**
     * `setTrigger(cmp)`: an swfupload connector built from `swfParams` is appended
     * to the registry. Whether it already holds its `swf` object is up to the
     * connector, whose code is not part of this model.
     */
    method SetTrigger(cmp: Component, hasSwf: bool)
      modifies this`connections
      ensures connections == old(connections) + [Connection(SwfConnector, UrlOf(swfParams), hasSwf, swfParams)]
    {
      connections := connections + [Connection(SwfConnector, UrlOf(swfParams), hasSwf, swfParams)];
    }

    /**
     * `init(cmp)` followed by the rendering of `cmp`, which fires the listener
     * `init` attached: a trigger or a drop zone gains exactly one connection,
     * any other component none.
     */
    method Render(cmp: Component, hasSwf: bool)
      modifies this`connections, this`dialogEl
      ensures Classify(cmp.xtype) == Trigger ==>
        connections == old(connections) + [Connection(SwfConnector, UrlOf(swfParams), hasSwf, swfParams)]
      ensures Classify(cmp.xtype) == DropZone ==>
        connections == old(connections) + [Connection(Html5Connector, UrlOf(html5Params), false, html5Params)]
      ensures Classify(cmp.xtype) == Ignored ==> connections == old(connections)
      ensures dialogEl == (old(dialogEl) || (Classify(cmp.xtype) == DropZone && cmp.uploadLogPanelTarget))
    {
      match Classify(cmp.xtype)
      case Trigger => SetTrigger(cmp, hasSwf);
      case DropZone => SetDropZone(cmp);
      case Ignored =>
    }

    /** `getLogPanel`: the existing panel, or a new one framed by a dialog when `dialogEl` is set. */
    method GetLogPanel() returns (p: LogPanel)
      requires Valid()
      modifies this`logPanel
      ensures Valid() && PanelKept()
      ensures logPanel == p
      ensures old(logPanel) == null ==> p.queue == [] && p.displayed == [] && p.status == None && !p.visible
    {
      if logPanel == null {
        logPanel := new LogPanel(dialogEl);
      }
      p := logPanel;
    }

    /**
     * `setUploadUrl(u)`: the uploader's own url, both parameter maps and every
     * connector's url become `u`; each connector holding an `swf` is told the new URL.
     */
    method SetUploadUrl(u: string)
      modifies this`url, this`swfParams, this`html5Params, this`connections, this`swfCalls
      ensures url == Str(u)
      ensures swfParams == old(swfParams)["url" := Str(u)]
      ensures html5Params == old(html5Params)["url" := Str(u)]
      ensures connections == WithUrl(old(connections), u)
      ensures swfCalls == old(swfCalls) + SwfCallsFrom(old(connections), 0, u)
    {
      url := Str(u);
      swfParams := swfParams["url" := Str(u)];
      html5Params := html5Params["url" := Str(u)];
      ghost var conns0 := connections;
      ghost var calls0 := swfCalls;
      var i := 0;
      while i < |connections|
        invariant 0 <= i <= |connections| == |conns0|
        invariant connections[..i] == WithUrl(conns0, u)[..i]
        invariant connections[i..] == conns0[i..]
        invariant calls0 + SwfCallsFrom(conns0, 0, u) == swfCalls + SwfCallsFrom(conns0, i, u)
        invariant url == Str(u) && swfParams == old(swfParams)["url" := Str(u)]
        invariant html5Params == old(html5Params)["url" := Str(u)]
      {
        var conn := connections[i];
        assert conn == conns0[i];
        SwfCallsStep(conns0, i, u);
        if conn.hasSwf {
          swfCalls := swfCalls + [SetUploadURL(i, u)];
        }
        connections := connections[i := conn.(url := Str(u))];
        i := i + 1;
      }
      assert connections == connections[..i];
    }

    /** `onBeforeUpload`: re-fired as the uploader's `beforeupload`. */
    method OnBeforeUpload(conn: Connection, fileCount: int)
      modifies this`fired
      ensures fired == old(fired) + [BeforeUpload(conn, fileCount)]
    {
      fired := fired + [BeforeUpload(conn, fileCount)];
    }

    /** `onUploadStart`: with the log panel enabled, show it, add the file's bar and show "en attente...". */
    method OnUploadStart(conn: Connection, file: FileInfo)
      requires Valid()
      modifies this`logPanel, logPanel
      ensures Valid() && PanelKept()
      ensures !enableLogPanel ==> logPanel == old(logPanel) && (logPanel != null ==> unchanged(logPanel))
      ensures enableLogPanel ==>
        && logPanel != null && logPanel.visible
        && logPanel.queue == Added(old(PanelQueue()), file)
        && logPanel.displayed == (if IndexOf(old(PanelQueue()), file.id).Some? then old(PanelDisplayed()) else old(PanelDisplayed()) + [file.id])
        && logPanel.status == Some(StatusLine("loading", "en attente..."))
    {
      if enableLogPanel {
        var panel := GetLogPanel();
        panel.Show();
        panel.AddProgress(file);
        panel.SetStatus("loading", "en attente...");
      }
    }

    /**
     * `onUploadProgress`: with the log panel enabled, a "loading" update of the
     * file's bar. `ok` is false when that update raises (the file is not in the queue).
     */
    method OnUploadProgress(conn: Connection, file: FileInfo, uploaded: real) returns (ok: bool)
      requires Valid()
      modifies this`logPanel, logPanel
      ensures Valid() && PanelKept()
      ensures !enableLogPanel ==> ok && logPanel == old(logPanel) && (logPanel != null ==> unchanged(logPanel))
      ensures enableLogPanel ==> logPanel != null && ok == IndexOf(old(PanelQueue()), file.id).Some?
      ensures enableLogPanel && ok ==>
        && logPanel.queue == Updated(old(PanelQueue()), file, uploaded, "loading", "")
        && logPanel.status == Some(CounterLine(logPanel.queue))
      ensures enableLogPanel && !ok ==> logPanel.queue == old(PanelQueue()) && logPanel.status == old(PanelStatus())
      ensures enableLogPanel ==> logPanel.displayed == old(PanelDisplayed()) && logPanel.visible == old(PanelVisible())
    {
      ok := true;
      if enableLogPanel {
        var panel := GetLogPanel();
        ok := panel.UpdateProgress(file, uploaded, "loading", "");
      }
    }

    /**
     * `onUploadComplete`: with the log panel enabled, a "success" update at
     * progress 1; then `fileupload` is fired with the connector and the file.
     * When the update raises, the event is not reached.
     */
    method OnUploadComplete(conn: Connection, file: FileInfo) returns (ok: bool)
      requires Valid()
      modifies this`logPanel, this`fired, logPanel
      ensures Valid() && PanelKept()
      ensures ok == (!enableLogPanel || IndexOf(old(PanelQueue()), file.id).Some?)
      ensures fired == old(fired) + (if ok then [FileUpload(conn, file)] else [])
      ensures !enableLogPanel ==> logPanel == old(logPanel) && (logPanel != null ==> unchanged(logPanel))
      ensures enableLogPanel && ok ==>
        && logPanel != null
        && logPanel.queue == Updated(old(PanelQueue()), file, 1.0, "success", "")
        && logPanel.status == Some(CounterLine(logPanel.queue))
      ensures enableLogPanel && !ok ==>
        logPanel != null && logPanel.queue == old(PanelQueue()) && logPanel.status == old(PanelStatus())
      ensures enableLogPanel ==>
        logPanel != null && logPanel.displayed == old(PanelDisplayed()) && logPanel.visible == old(PanelVisible())
    {
      ok := true;
      if enableLogPanel {
        var panel := GetLogPanel();
        ok := panel.UpdateProgress(file, 1.0, "success", "");
      }
      if ok {
        fired := fired + [FileUpload(conn, file)];
      }
    }

    /**
     * `onUploadError`: with the log panel enabled, show it; for a known file add
     * its bar and mark it "error" at progress 0, otherwise put the message in the status bar.
     */
    method OnUploadError(conn: Connection, file: Option<FileInfo>, msg: string)
      requires Valid()
      modifies this`logPanel, logPanel
      ensures Valid() && PanelKept()
      ensures !enableLogPanel ==> logPanel == old(logPanel) && (logPanel != null ==> unchanged(logPanel))
      ensures enableLogPanel ==> logPanel != null && logPanel.visible
      ensures enableLogPanel && file.Some? ==>
        && IndexOf(Added(old(PanelQueue()), file.value), file.value.id).Some?
        && logPanel.queue == Updated(Added(old(PanelQueue()), file.value), file.value, 0.0, "error", msg)
        && logPanel.status == Some(CounterLine(logPanel.queue))
        && logPanel.displayed == (if IndexOf(old(PanelQueue()), file.value.id).Some? then old(PanelDisplayed()) else old(PanelDisplayed()) + [file.value.id])
      ensures enableLogPanel && file.None? ==>
        && logPanel.queue == old(PanelQueue()) && logPanel.status == Some(StatusLine("error", msg))
        && logPanel.displayed == old(PanelDisplayed())
    {
      if enableLogPanel {
        var panel := GetLogPanel();
        panel.Show();
        if file.Some? {
          LogFileError(panel, file.value, msg);
        } else {
          panel.SetStatus("error", msg);
        }
      }
    }
  }

  /** The file branch of `onUploadError`: `addProgress(file)`, then an "error" update at progress 0. */
  method LogFileError(panel: LogPanel, file: FileInfo, msg: string)
    requires panel.Valid()
    modifies panel`queue, panel`displayed, panel`status
    ensures panel.Valid()
    ensures IndexOf(Added(old(panel.queue), file), file.id).Some?
    ensures panel.queue == Updated(Added(old(panel.queue), file), file, 0.0, "error", msg)
    ensures panel.status == Some(CounterLine(panel.queue))
    ensures panel.displayed == if IndexOf(old(panel.queue), file.id).Some? then old(panel.displayed) else old(panel.displayed) + [file.id]
    ensures panel.visible == old(panel.visible)
  {
    AddedProperties(panel.queue, file);
    panel.AddProgress(file);
    var ok := panel.UpdateProgress(file, 0.0, "error", msg);
  }

  /**
   * An error reported for a file always leaves that file's bar finished, typed
   * "error", whether or not the file was already in the queue.
   */
  lemma ErrorFinishesFile(q: seq<Entry>, f: FileInfo, msg: string)
    requires UniqueIds(q)
    ensures IndexOf(Added(q, f), f.id).Some?
    ensures var r := Updated(Added(q, f), f, 0.0, "error", msg); var i := IndexOf(Added(q, f), f.id).value;
      !r[i].isUploading && r[i].kind == "error"
  {
    AddedProperties(q, f);
    UpdatedProperties(Added(q, f), f, 0.0, "error", msg);
  }

  /**
   * A completed upload of a file that started earlier leaves its bar finished
   * and typed "success", and the counter total unchanged.
   */
  lemma CompleteFinishesFile(q: seq<Entry>, f: FileInfo)
    requires UniqueIds(q) && IndexOf(q, f.id).Some?
    ensures var r := Updated(q, f, 1.0, "success", ""); var i := IndexOf(q, f.id).value;
      !r[i].isUploading && r[i].kind == "success" && r[i].progress == 1.0 && CounterOf(r).total == |q|
  {
    UpdatedProperties(q, f, 1.0, "success", "");
  }
}
