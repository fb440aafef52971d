/**
 * The earlier single-file uploader (Ext.ux.Uploader.js): a smaller role table,
 * swfupload handlers that log to an `uploadLogPanel`, the html5 drop path that
 * gives each dropped file a generated id and posts it, and the sizing of the
 * swfupload button once the movie is loaded.
 */
module LegacyUpload {
  import opened Common

  /** How `init` binds a component. */
  datatype Role = Trigger | DropZone | Ignored

  const TriggerXTypes: seq<string> := ["button", "menuitem"]
  const DropZoneXTypes: seq<string> := ["dataview", "panel"]

  /** `isTrigger` is checked first; a drop zone is only a "dataview" or a "panel"; anything else is ignored. */
  function Classify(xtype: string): (r: Role)
    ensures r == Trigger <==> xtype == "button" || xtype == "menuitem"
    ensures r == DropZone <==> xtype == "dataview" || xtype == "panel"
    ensures r == Ignored <==> xtype !in {"button", "menuitem", "dataview", "panel"}
  {
    if xtype in TriggerXTypes then Trigger
    else if xtype in DropZoneXTypes then DropZone
    else Ignored
  }

  /** The message of `show` and of the dialog-complete handler: "N file to upload" or "N files to upload". */
  function FilesToUpload(n: nat): (r: string)
    ensures |r| > |NatToString(n)| && r[..|NatToString(n)|] == NatToString(n)
  {
    NatToString(n) + " " + (if n > 1 then "files" else "file") + " to upload"
  }

  /** The word is plural exactly when the count is above one. */
  lemma FilesToUploadPlural(n: nat)
    ensures n > 1 <==> FilesToUpload(n)[|NatToString(n)|..] == " files to upload"
    ensures n <= 1 <==> FilesToUpload(n)[|NatToString(n)|..] == " file to upload"
  {
    var d := NatToString(n);
    var tail := " " + (if n > 1 then "files" else "file") + " to upload";
    assert FilesToUpload(n) == d + tail;
    assert FilesToUpload(n)[|d|..] == tail;
    assert |" files to upload"| != |" file to upload"|;
  }

  /** The message names the count it was built from: different counts give different messages. */
  lemma FilesToUploadDetermines(a: nat, b: nat)
    requires FilesToUpload(a) == FilesToUpload(b)
    ensures a == b
  {
    NumberThenText(a, b,
      " " + (if a > 1 then "files" else "file") + " to upload",
      " " + (if b > 1 then "files" else "file") + " to upload");
  }

  /** `Ext.id()`: the prefix "ext-gen" followed by the incremented global seed. */
  function GenId(seed: nat): string {
    "ext-gen" + NatToString(seed)
  }

  lemma GenIdInjective(a: nat, b: nat)
    ensures GenId(a) == GenId(b) <==> a == b
  {
    if GenId(a) == GenId(b) {
      assert NatToString(a) == GenId(a)[7..];
      assert NatToString(b) == GenId(b)[7..];
      NatToStringInjective(a, b);
    }
  }

  /** The request `startHtml5Upload` opens and sends for one file. */
  datatype Request = Request(verb: string, url: string, async: bool, headers: seq<(string, string)>, body: FileInfo)

  function PostRequest(url: string, f: FileInfo): Request {
    Request("POST", url, true,
      [("Content-Type", "application/octet-stream"),
       ("X-File-Name", f.name),
       ("X-File-Size", NatToString(f.size)),
       ("X-Requested-With", "XMLHttpRequest")],
      f)
  }

  /** The file records `startHtml5Upload` uploads: each file with the next generated id. */
  function WithFreshIds(files: seq<FileInfo>, seed: nat): (r: seq<FileInfo>)
    ensures |r| == |files|
    ensures forall i :: 0 <= i < |r| ==> r[i] == files[i].(id := GenId(seed + i + 1))
  {
    seq(|files|, i requires 0 <= i < |files| => files[i].(id := GenId(seed + i + 1)))
  }

  /**
   * The generated ids of one drop are pairwise different, and different from
   * every id generated before it (seeds up to `seed`).
   */
  lemma FreshIdsUnique(files: seq<FileInfo>, seed: nat)
    ensures forall i, j :: 0 <= i < j < |files| ==> WithFreshIds(files, seed)[i].id != WithFreshIds(files, seed)[j].id
    ensures forall i, k: nat :: 0 <= i < |files| && k <= seed ==> WithFreshIds(files, seed)[i].id != GenId(k)
  {
    var r := WithFreshIds(files, seed);
    forall i, j | 0 <= i < j < |files| ensures r[i].id != r[j].id {
      GenIdInjective(seed + i + 1, seed + j + 1);
    }
    forall i, k: nat | 0 <= i < |files| && k <= seed ensures r[i].id != GenId(k) {
      GenIdInjective(seed + i + 1, k);
    }
  }

  /**
   * One item of `progressQueue`: the file id and the state of its progress bar
   * (value, template type and caption).
   */
  datatype Entry = Entry(id: string, progress: real, kind: string, caption: string)

  /** The id column of `progressQueue` (the same projection as the split panel's, over this entry type). */
  function Ids(q: seq<Entry>): (r: seq<string>)
    ensures |r| == |q| && forall i :: 0 <= i < |q| ==> r[i] == q[i].id
  {
    seq(|q|, i requires 0 <= i < |q| => q[i].id)
  }

  function IndexOf(q: seq<Entry>, id: string): (r: Option<nat>)
    ensures r.None? <==> forall i :: 0 <= i < |q| ==> q[i].id != id
    ensures r.Some? ==> r.value < |q| && q[r.value].id == id
    ensures r.Some? ==> forall j :: 0 <= j < r.value ==> q[j].id != id
  {
    FirstIndex(Ids(q), id)
  }

  /** The bar `add` creates, always, even for an id already queued: rendered with the "error" type. */
  function NewEntry(f: FileInfo): Entry {
    Entry(f.id, 0.0, "error", f.name)
  }

  function NewEntries(files: seq<FileInfo>): (r: seq<Entry>)
    ensures |r| == |files| && forall i :: 0 <= i < |files| ==> r[i] == NewEntry(files[i])
  {
    seq(|files|, i requires 0 <= i < |files| => NewEntry(files[i]))
  }

  /**
   * Since `add` does not de-duplicate, a second bar for an id already queued is
   * never found: `getProgress` keeps returning the first one.
   */
  lemma AddKeepsFirst(q: seq<Entry>, f: FileInfo)
    ensures IndexOf(q + [NewEntry(f)], f.id) == if IndexOf(q, f.id).Some? then IndexOf(q, f.id) else Some(|q|)
    ensures forall id :: id != f.id ==> IndexOf(q + [NewEntry(f)], id) == IndexOf(q, id)
  {
    var e := NewEntry(f);
    assert Ids(q + [e]) == Ids(q) + [e.id];
    forall id | true ensures FirstIndex(Ids(q + [e]), id) == FirstIndex(Ids(q) + [e.id], id) {
    }
    FirstIndexAppend(Ids(q), e.id, f.id);
    forall id | id != f.id ensures IndexOf(q + [e], id) == IndexOf(q, id) {
      FirstIndexAppend(Ids(q), e.id, id);
    }
  }

  /** The queue after a successful `updateProgess`: the first bar of the file gets the value and the type. */
  function Updated(q: seq<Entry>, f: FileInfo, progress: real): (r: seq<Entry>)
    requires IndexOf(q, f.id).Some?
    ensures |r| == |q|
  {
    var i := IndexOf(q, f.id).value;
    q[i := Entry(q[i].id, progress, if progress == 1.0 then "success" else "loading", f.name)]
  }

  /** The bar is marked "success" exactly at progress 1 and "loading" otherwise; no other bar changes. */
  lemma UpdatedProperties(q: seq<Entry>, f: FileInfo, progress: real)
    requires IndexOf(q, f.id).Some?
    ensures var i := IndexOf(q, f.id).value; var r := Updated(q, f, progress);
      && (r[i].kind == "success" <==> progress == 1.0)
      && (r[i].kind == "loading" <==> progress != 1.0)
      && r[i].progress == progress && r[i].id == f.id
      && (forall j :: 0 <= j < |q| && j != i ==> r[j] == q[j])
      && Ids(r) == Ids(q)
  {
    var r := Updated(q, f, progress);
    assert Ids(r) == Ids(q);
  }

  /** The calls the uploader makes on one SWFUpload object. */
  datatype SwfCall =
    | RefreshCookies(flag: bool)
    | StartUpload
    | SetButtonImageURL(url: string)
    | SetButtonDimensions(width: int, height: int)

  /** A trigger's SWFUpload object `cmp.uploadConfig.conn`: its loaded flag and the calls made on it. */
  class SwfConn {
    var isLoaded: bool
    const buttonImageUrl: string
    var calls: seq<SwfCall>

    constructor (buttonImageUrl: string)
      ensures !isLoaded && calls == [] && this.buttonImageUrl == buttonImageUrl
    {
      isLoaded := false;
      this.buttonImageUrl := buttonImageUrl;
      calls := [];
    }
  }

  /** An xhr `progress` or `load` event: whether its length is computable, and `loaded/total`. */
  datatype ProgressEvent = ProgressEvent(lengthComputable: bool, fraction: real)

  datatype Event = FileUpload(cmp: Component, file: FileInfo)

  /** `Ext.ux.uploadLogPanel`: the progress queue, the status bar and the window that shows them. */
  class LogPanel {
    var queue: seq<Entry>
    var status: Option<StatusLine>
    var visible: bool
    const boundEl: bool

    constructor (boundEl: bool)
      ensures queue == [] && status == None && !visible && this.boundEl == boundEl
    {
      queue := [];
      status := None;
      visible := false;
      this.boundEl := boundEl;
    }

    /** `show(config)`: the window is shown and the status reads "N file(s) to upload". */
    method Show(fileCount: nat)
      modifies this`visible, this`status
      ensures visible && status == Some(StatusLine("info", FilesToUpload(fileCount)))
    {
      visible := true;
      Log("info", NatToString(fileCount) + " " + (if fileCount > 1 then "files" else "file") + " to upload");
    }

    /** `add(file)`: one more bar, whatever its id. */
    method Add(file: FileInfo)
      modifies this`queue
      ensures queue == old(queue) + [NewEntry(file)]
    {
      queue := queue + [NewEntry(file)];
    }

    /** `log(type, msg)`: the status bar shows `msg` with the icon of `type`. */
    method Log(kind: string, msg: string)
      modifies this`status
      ensures status == Some(StatusLine(kind, msg))
    {
      status := Some(StatusLine(kind, msg));
    }

    /** `getProgress(id)`: the first bar whose id matches, None for `false`. */
    method GetProgress(id: string) returns (r: Option<Entry>)
      ensures r.None? <==> IndexOf(queue, id).None?
      ensures r.Some? ==> r.value == queue[IndexOf(queue, id).value]
    {
      var i := 0;
      while i < |queue|
        invariant 0 <= i <= |queue|
        invariant forall j :: 0 <= j < i ==> queue[j].id != id
      {
        if queue[i].id == id {
          return Some(queue[i]);
        }
        i := i + 1;
      }
      return None;
    }

    /**
     * `updateProgess(file, progress)`: the file's bar gets the value, typed
     * "success" at exactly 1 and "loading" otherwise. For an unknown id
     * `getProgress` gives `false` and the call raises (`ok` is false).
     */
    method UpdateProgess(file: FileInfo, progress: real) returns (ok: bool)
      modifies this`queue
      ensures ok == IndexOf(old(queue), file.id).Some?
      ensures ok ==> queue == Updated(old(queue), file, progress)
      ensures !ok ==> queue == old(queue)
    {
      var p := GetProgress(file.id);
      if p.None? {
        return false;
      }
      var i := IndexOf(queue, file.id).value;
      var kind := if progress == 1.0 then "success" else "loading";
      queue := queue[i := Entry(p.value.id, progress, kind, file.name)];
      return true;
    }
  }

  class Uploader {
    var url: string
    /** Whether a drop zone flagged `uploadLogPanelTarget` has set `boundEl`. */
    var boundEl: bool
    var logPanel: LogPanel?
    /** Undefined (None) until the first dialog completes. */
    var uploadingFileCount: Option<int>
    /** `Ext.idSeed`, the counter behind `Ext.id()`. */
    var idSeed: nat
    var fired: seq<Event>

    ghost function PanelQueue(): seq<Entry>
      reads this, logPanel
    {
      if logPanel == null then [] else logPanel.queue
    }

    /** The panel's status, None while no panel exists (as a new panel starts). */
    ghost function PanelStatus(): Option<StatusLine>
      reads this, logPanel
    {
      if logPanel == null then None else logPanel.status
    }

    /** Whether the panel's window is shown, false while no panel exists (as a new panel starts). */
    ghost function PanelVisible(): bool
      reads this, logPanel
    {
      logPanel != null && logPanel.visible
    }

    twostate predicate PanelKept()
      reads this
    {
      && (old(logPanel) != null ==> logPanel == old(logPanel))
      && (old(logPanel) == null && logPanel != null ==> fresh(logPanel) && logPanel.boundEl == boundEl)
    }

    /** The prototype defaults: the upload url, no bound element, no panel yet. */
    constructor (idSeed: nat)
      ensures url == "/dev/upload/test/upload.php" && !boundEl && logPanel == null
      ensures uploadingFileCount == None && this.idSeed == idSeed && fired == []
    {
      url := "/dev/upload/test/upload.php";
      boundEl := false;
      logPanel := null;
      uploadingFileCount := None;
      this.idSeed := idSeed;
      fired := [];
    }

    /** `getLogPanel`: the existing panel, or a new one bound to `boundEl`. */
    method GetLogPanel() returns (p: LogPanel)
      modifies this`logPanel
      ensures PanelKept() && logPanel == p
      ensures old(logPanel) == null ==> p.queue == [] && p.status == None && !p.visible
    {
      if logPanel == null {
        logPanel := new LogPanel(boundEl);
      }
      p := logPanel;
    }

    /** `setDropZone(cmp)`: a component flagged `uploadLogPanelTarget` becomes `boundEl`. */
    method SetDropZone(cmp: Component)
      modifies this`boundEl
      ensures boundEl == (old(boundEl) || cmp.uploadLogPanelTarget)
    {
      if cmp.uploadLogPanelTarget {
        boundEl := true;
      }
    }

    /**
     * `startHtml5Upload(files)`: each file gets the next `Ext.id()`, a bar in the
     * log panel and one POST to `url` with the four headers in this order.
     */
    method StartHtml5Upload(files: seq<FileInfo>) returns (uploads: seq<FileInfo>, requests: seq<Request>)
      modifies this`idSeed, this`logPanel, logPanel
      ensures PanelKept()
      ensures uploads == WithFreshIds(files, old(idSeed))
      ensures |requests| == |files| && forall i :: 0 <= i < |files| ==> requests[i] == PostRequest(url, uploads[i])
      ensures idSeed == old(idSeed) + |files|
      ensures |files| > 0 ==> logPanel != null && logPanel.queue == old(PanelQueue()) + NewEntries(uploads)
      ensures |files| == 0 ==> logPanel == old(logPanel) && (logPanel != null ==> unchanged(logPanel))
      ensures logPanel != null ==> logPanel.status == old(PanelStatus()) && logPanel.visible == old(PanelVisible())
    {
      uploads, requests := [], [];
      ghost var seed0 := idSeed;
      ghost var q0 := PanelQueue();
      var i := 0;
      while i < |files|
        invariant 0 <= i <= |files|
        invariant idSeed == seed0 + i
        invariant uploads == WithFreshIds(files[..i], seed0)
        invariant |requests| == i && forall j :: 0 <= j < i ==> requests[j] == PostRequest(url, uploads[j])
        invariant PanelKept()
        invariant i > 0 ==> logPanel != null && logPanel.queue == q0 + NewEntries(uploads)
        invariant i == 0 ==> logPanel == old(logPanel) && (logPanel != null ==> unchanged(logPanel))
        invariant logPanel != null ==> logPanel.status == old(PanelStatus()) && logPanel.visible == old(PanelVisible())
      {
        idSeed := idSeed + 1;
        var file := files[i].(id := GenId(idSeed));
        var panel := GetLogPanel();
        panel.Add(file);
        assert NewEntries(uploads + [file]) == NewEntries(uploads) + [NewEntry(file)];
        assert WithFreshIds(files[..i + 1], seed0) == WithFreshIds(files[..i], seed0) + [file];
        uploads := uploads + [file];
        requests := requests + [PostRequest(url, file)];
        i := i + 1;
      }
      assert files[..i] == files;
    }

    /** The `drop` listener of a drop zone: show the panel for a non-empty drop, then upload. */
    method OnDrop(cmp: Component, files: seq<FileInfo>) returns (uploads: seq<FileInfo>, requests: seq<Request>)
      modifies this`idSeed, this`logPanel, logPanel
      ensures PanelKept()
      ensures uploads == WithFreshIds(files, old(idSeed))
      ensures |requests| == |files| && forall i :: 0 <= i < |files| ==> requests[i] == PostRequest(url, uploads[i])
      ensures idSeed == old(idSeed) + |files|
      ensures |files| > 0 ==>
        && logPanel != null && logPanel.visible
        && logPanel.queue == old(PanelQueue()) + NewEntries(uploads)
        && logPanel.status == Some(StatusLine("info", FilesToUpload(|files|)))
      ensures |files| == 0 ==> logPanel == old(logPanel) && (logPanel != null ==> unchanged(logPanel))
    {
      if |files| > 0 {
        var panel := GetLogPanel();
        panel.Show(|files|);
      }
      uploads, requests := StartHtml5Upload(files);
    }

    /**
     * `swfUploaderDialogComplete`: the uploading count is reset; when files were
     * queued, the status reads "N file(s) to upload" and the SWFUpload object
     * refreshes its cookies and then starts the upload; otherwise neither call is made.
     */
    method DialogComplete(numFilesSelected: nat, numFilesQueued: nat, conn: SwfConn)
      modifies this`uploadingFileCount, this`logPanel, logPanel, conn`calls
      ensures uploadingFileCount == Some(0) && PanelKept()
      ensures conn.calls == old(conn.calls) + if numFilesQueued > 0 then [RefreshCookies(true), StartUpload] else []
      ensures numFilesQueued > 0 ==>
        logPanel != null && logPanel.status == Some(StatusLine("info", FilesToUpload(numFilesQueued)))
        && logPanel.queue == old(PanelQueue()) && logPanel.visible == old(PanelVisible())
      ensures numFilesQueued == 0 ==> logPanel == old(logPanel) && (logPanel != null ==> unchanged(logPanel))
    {
      uploadingFileCount := Some(0);
      if numFilesQueued != 0 {
        var panel := GetLogPanel();
        panel.Log("info", NatToString(numFilesQueued) + " " + (if numFilesQueued > 1 then "files" else "file") + " to upload");
        conn.calls := conn.calls + [RefreshCookies(true)];
        conn.calls := conn.calls + [StartUpload];
      }
    }

    /** `swfUploaderDialogOpen`: the panel is shown twice with a count of 0. */
    method DialogOpen()
      modifies this`logPanel, logPanel
      ensures PanelKept() && logPanel != null && logPanel.visible
      ensures logPanel.status == Some(StatusLine("info", FilesToUpload(0)))
      ensures logPanel.queue == old(PanelQueue())
    {
      var panel := GetLogPanel();
      panel.Show(0);
      panel.Show(0);
    }

    /** `swfUploaderFileUploadStart`: a bar for the file. */
    method SwfFileUploadStart(file: FileInfo)
      modifies this`logPanel, logPanel
      ensures PanelKept() && logPanel != null
      ensures logPanel.queue == old(PanelQueue()) + [NewEntry(file)]
      ensures logPanel.status == old(PanelStatus()) && logPanel.visible == old(PanelVisible())
    {
      var panel := GetLogPanel();
      panel.Add(file);
    }

    /** `swfUploaderFileUploadProgress`: an update at `uploadedSize/totalSize`. */
    method SwfFileUploadProgress(file: FileInfo, fraction: real) returns (ok: bool)
      modifies this`logPanel, logPanel
      ensures PanelKept() && logPanel != null
      ensures ok == IndexOf(old(PanelQueue()), file.id).Some?
      ensures ok ==> logPanel.queue == Updated(old(PanelQueue()), file, fraction)
      ensures !ok ==> logPanel.queue == old(PanelQueue())
      ensures logPanel.status == old(PanelStatus()) && logPanel.visible == old(PanelVisible())
    {
      var panel := GetLogPanel();
      ok := panel.UpdateProgess(file, fraction);
    }

    /** `uploadProgress`: the panel is updated only when the event's length is computable. */
    method UploadProgress(file: FileInfo, event: ProgressEvent) returns (ok: bool)
      modifies this`logPanel, logPanel
      ensures PanelKept()
      ensures !event.lengthComputable ==> ok && logPanel == old(logPanel) && (logPanel != null ==> unchanged(logPanel))
      ensures event.lengthComputable ==> logPanel != null && ok == IndexOf(old(PanelQueue()), file.id).Some?
      ensures event.lengthComputable && ok ==> logPanel.queue == Updated(old(PanelQueue()), file, event.fraction)
      ensures event.lengthComputable && !ok ==> logPanel.queue == old(PanelQueue())
      ensures event.lengthComputable ==> logPanel.status == old(PanelStatus()) && logPanel.visible == old(PanelVisible())
    {
      ok := true;
      if event.lengthComputable {
        var panel := GetLogPanel();
        ok := panel.UpdateProgess(file, event.fraction);
      }
    }

    /** `swfUploaderFileUploadComplete`: `fileupload` is fired with the component and the file. */
    method SwfFileUploadComplete(file: FileInfo, cmp: Component)
      modifies this`fired
      ensures fired == old(fired) + [FileUpload(cmp, file)]
    {
      fired := fired + [FileUpload(cmp, file)];
    }

    /**
     * `uploadLoad`: an update at `loaded/total` with no length check, then
     * `fileupload`; when the update raises, the event is not reached.
     */
    method UploadLoad(file: FileInfo, cmp: Component, event: ProgressEvent) returns (ok: bool)
      modifies this`logPanel, this`fired, logPanel
      ensures PanelKept() && logPanel != null
      ensures ok == IndexOf(old(PanelQueue()), file.id).Some?
      ensures ok ==> logPanel.queue == Updated(old(PanelQueue()), file, event.fraction)
      ensures !ok ==> logPanel.queue == old(PanelQueue())
      ensures logPanel.status == old(PanelStatus()) && logPanel.visible == old(PanelVisible())
      ensures fired == old(fired) + if ok then [FileUpload(cmp, file)] else []
    {
      var panel := GetLogPanel();
      ok := panel.UpdateProgess(file, event.fraction);
      if ok {
        fired := fired + [FileUpload(cmp, file)];
      }
    }

    /** `swfUploaderFileQueueError`: the status reads "queue error" and the file still gets a bar. */
    method SwfFileQueueError(file: FileInfo, errorCode: int, errorMsg: string, cmp: Component)
      modifies this`logPanel, logPanel
      ensures PanelKept() && logPanel != null
      ensures logPanel.status == Some(StatusLine("error", "queue error")) && logPanel.visible == old(PanelVisible())
      ensures logPanel.queue == old(PanelQueue()) + [NewEntry(file)]
    {
      var panel := GetLogPanel();
      panel.Log("error", "queue error");
      panel.Add(file);
    }

    /**
     * `resizeTrigger` (the overlay's position and size are left out): once the
     * movie is loaded, on Chrome with a button image the image is pushed, then
     * the button dimensions; before that nothing is pushed.
     */
    method ResizeTrigger(conn: SwfConn, width: int, height: int, isChrome: bool)
      modifies conn`calls
      ensures conn.calls == old(conn.calls) +
        if !conn.isLoaded then []
        else (if isChrome && conn.buttonImageUrl != "" then [SetButtonImageURL(conn.buttonImageUrl)] else [])
             + [SetButtonDimensions(width, height)]
    {
      if conn.isLoaded {
        if isChrome && conn.buttonImageUrl != "" {
          conn.calls := conn.calls + [SetButtonImageURL(conn.buttonImageUrl)];
        }
        conn.calls := conn.calls + [SetButtonDimensions(width, height)];
      }
    }

    /** `swfUploaderLoaded`: the connector is marked loaded before the trigger is resized. */
    method SwfLoaded(conn: SwfConn, width: int, height: int, isChrome: bool)
      modifies conn
      ensures conn.isLoaded
      ensures conn.calls == old(conn.calls) +
        (if isChrome && conn.buttonImageUrl != "" then [SetButtonImageURL(conn.buttonImageUrl)] else [])
        + [SetButtonDimensions(width, height)]
    {
      conn.isLoaded := true;
      ResizeTrigger(conn, width, height, isChrome);
    }
  }
}
