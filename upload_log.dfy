/**
 * The progress log of the split uploader (js/Ext.ux.upload.LogPanel.js): a queue
 * of per-file progress bars, each with an `isUploading` flag, and a status bar
 * whose text counts finished files ("k/n").
 */
module UploadLog {
  import opened Common

  /**
   * One queue item `{id, p}`. The progress bar `p` is folded into the entry:
   * its `isUploading` flag, its value, and the type, caption and tooltip its
   * template was last rendered with.
   */
  datatype Entry = Entry(id: string, isUploading: bool, progress: real, kind: string, caption: string, msg: string)

  /** The ids of a queue, in order. */
  function Ids(q: seq<Entry>): (r: seq<string>)
    ensures |r| == |q| && forall i :: 0 <= i < |q| ==> r[i] == q[i].id
  {
    seq(|q|, i requires 0 <= i < |q| => q[i].id)
  }

  /** The position `getProgress` finds: the first entry with that id. */
  function IndexOf(q: seq<Entry>, id: string): (r: Option<nat>)
    ensures r.None? <==> forall i :: 0 <= i < |q| ==> q[i].id != id
    ensures r.Some? ==> r.value < |q| && q[r.value].id == id
    ensures r.Some? ==> forall j :: 0 <= j < r.value ==> q[j].id != id
  {
    FirstIndex(Ids(q), id)
  }

  ghost predicate UniqueIds(q: seq<Entry>) {
    forall i, j :: 0 <= i < j < |q| ==> q[i].id != q[j].id
  }

  /** The entry a fresh `addProgress` creates: uploading, empty, labelled with the file name. */
  function NewEntry(f: FileInfo): Entry {
    Entry(f.id, true, 0.0, "loading", f.name, "")
  }

  /** The queue after `addProgress(f)`: unchanged when the id is known, else one entry appended. */
  function Added(q: seq<Entry>, f: FileInfo): seq<Entry> {
    if IndexOf(q, f.id).Some? then q else q + [NewEntry(f)]
  }

  /** Whether `updateProgress` clears the active flag: progress exactly 1, or an error. */
  predicate Clears(progress: real, kind: string) {
    progress == 1.0 || kind == "error"
  }

  /**
   * The bar type `updateProgress` renders: the caller's type when given (the
   * empty string stands for a missing one), else "success" at progress 1, else "loading".
   */
  function ResolveKind(progress: real, kind: string): (r: string)
    ensures kind != "" ==> r == kind
    ensures kind == "" && progress == 1.0 ==> r == "success"
    ensures kind == "" && progress != 1.0 ==> r == "loading"
  {
    if Clears(progress, kind) && kind == "" then "success"
    else if kind == "" then "loading"
    else kind
  }

  /** The queue after a successful `updateProgress`: only the first entry with the file's id changes. */
  function Updated(q: seq<Entry>, f: FileInfo, progress: real, kind: string, msg: string): (r: seq<Entry>)
    requires IndexOf(q, f.id).Some?
    ensures |r| == |q|
  {
    var i := IndexOf(q, f.id).value;
    var p := q[i];
    q[i := Entry(p.id, p.isUploading && !Clears(progress, kind), progress, ResolveKind(progress, kind), f.name, msg)]
  }

  /** The number of entries whose bar is still uploading (what `getUploadingCount` counts). */
  function CountUploading(q: seq<Entry>): (c: nat)
    ensures c <= |q|
  {
    if q == [] then 0
    else CountUploading(q[..|q| - 1]) + (if q[|q| - 1].isUploading then 1 else 0)
  }

  /** The number of entries whose bar has finished, successfully or not. */
  function CountFinished(q: seq<Entry>): nat {
    if q == [] then 0
    else CountFinished(q[..|q| - 1]) + (if q[|q| - 1].isUploading then 0 else 1)
  }

  /** Every entry is either uploading or finished. */
  lemma {:induction false} CountsPartition(q: seq<Entry>)
    ensures CountUploading(q) + CountFinished(q) == |q|
  {
    if q != [] {
      CountsPartition(q[..|q| - 1]);
    }
  }

  /** No entry is counted as uploading exactly when every flag is cleared. */
  lemma {:induction false} CountUploadingZero(q: seq<Entry>)
    ensures CountUploading(q) == 0 <==> forall i :: 0 <= i < |q| ==> !q[i].isUploading
  {
    if q != [] {
      var init := q[..|q| - 1];
      CountUploadingZero(init);
      assert forall i :: 0 <= i < |init| ==> init[i] == q[i];
    }
  }

  /** The status counter `updateProgress` computes: the bar type and the "done/total" pair. */
  datatype Counter = Counter(kind: string, done: nat, total: nat)

  function CounterOf(q: seq<Entry>): (c: Counter)
    ensures c.total == |q|
    ensures c.kind == "loading" <==> CountUploading(q) > 0
    ensures c.kind == "info" <==> CountUploading(q) == 0
    ensures c.kind == "loading" ==> 1 <= c.done <= c.total && c.done == CountFinished(q) + 1
    ensures c.kind == "info" ==> c.done == c.total && c.done == CountFinished(q)
  {
    CountsPartition(q);
    var count := CountUploading(q);
    if count != 0 then Counter("loading", |q| - count + 1, |q|)
    else Counter("info", |q| - count, |q|)
  }

  /** The "done/total)" tail of the counter text. */
  function Fraction(done: nat, total: nat): string {
    NatToString(done) + ("/" + (NatToString(total) + ")"))
  }

  lemma FractionDetermines(a: nat, b: nat, a2: nat, b2: nat)
    requires Fraction(a, b) == Fraction(a2, b2)
    ensures a == a2 && b == b2
  {
    NumberThenText(a, a2, "/" + (NatToString(b) + ")"), "/" + (NatToString(b2) + ")"));
    var t1, t2 := NatToString(b) + ")", NatToString(b2) + ")";
    assert t1 == ("/" + t1)[1..];
    assert t2 == ("/" + t2)[1..];
    NumberThenText(b, b2, ")", ")");
  }

  function CounterPrefix(c: Counter): string {
    if c.kind == "loading" then "envoie " + (if c.total > 1 then "des fichiers" else "du fichier")
    else "envoie terminé "
  }

  /** The status-bar text for a counter: the French label then " (done/total)". */
  function CounterText(c: Counter): string {
    CounterPrefix(c) + " (" + Fraction(c.done, c.total)
  }

  function CounterLine(q: seq<Entry>): StatusLine {
    var c := CounterOf(q);
    StatusLine(c.kind, CounterText(c))
  }

  /** The counter renders unambiguously: two status texts are equal only for the same numbers. */
  lemma CounterTextDetermines(c1: Counter, c2: Counter)
    requires CounterPrefix(c1) == CounterPrefix(c2)
    requires CounterText(c1) == CounterText(c2)
    ensures c1.done == c2.done && c1.total == c2.total
  {
    var p := CounterPrefix(c1) + " (";
    assert Fraction(c1.done, c1.total) == CounterText(c1)[|p|..];
    assert Fraction(c2.done, c2.total) == CounterText(c2)[|p|..];
    FractionDetermines(c1.done, c1.total, c2.done, c2.total);
  }

  /**
   * How a queue may evolve: it only grows, existing entries keep their ids, and
   * an `isUploading` flag that is cleared is never set again.
   */
  ghost predicate Evolves(q0: seq<Entry>, q1: seq<Entry>) {
    && |q0| <= |q1|
    && (forall i :: 0 <= i < |q0| ==> q1[i].id == q0[i].id)
    && (forall i :: 0 <= i < |q0| ==> q1[i].isUploading ==> q0[i].isUploading)
  }

  lemma EvolvesTransitive(q0: seq<Entry>, q1: seq<Entry>, q2: seq<Entry>)
    requires Evolves(q0, q1) && Evolves(q1, q2)
    ensures Evolves(q0, q2)
  {
  }

  lemma AddedProperties(q: seq<Entry>, f: FileInfo)
    requires UniqueIds(q)
    ensures Evolves(q, Added(q, f))
    ensures UniqueIds(Added(q, f))
    ensures IndexOf(q, f.id).Some? ==> Added(q, f) == q
    ensures IndexOf(q, f.id).None? ==>
      |Added(q, f)| == |q| + 1 && Added(q, f)[..|q|] == q && Added(q, f)[|q|] == NewEntry(f)
    ensures IndexOf(Added(q, f), f.id).Some?
  {
    if IndexOf(q, f.id).None? {
      var r := q + [NewEntry(f)];
      assert r[..|q|] == q;
      assert r[|q|].id == f.id;
    }
  }

  /** `addProgress` is idempotent per id: a second add for the same id changes nothing. */
  lemma AddedIdempotent(q: seq<Entry>, f: FileInfo, g: FileInfo)
    requires g.id == f.id
    ensures Added(Added(q, f), g) == Added(q, f)
  {
    if IndexOf(q, f.id).None? {
      var r := q + [NewEntry(f)];
      assert r[|q|].id == g.id;
    }
  }

  lemma UpdatedProperties(q: seq<Entry>, f: FileInfo, progress: real, kind: string, msg: string)
    requires IndexOf(q, f.id).Some?
    ensures Evolves(q, Updated(q, f, progress, kind, msg))
    ensures UniqueIds(q) ==> UniqueIds(Updated(q, f, progress, kind, msg))
    ensures var i := IndexOf(q, f.id).value; var r := Updated(q, f, progress, kind, msg);
      && (forall j :: 0 <= j < |q| && j != i ==> r[j] == q[j])
      && r[i].id == f.id && r[i].progress == progress && r[i].msg == msg
      && r[i].kind == ResolveKind(progress, kind)
      && (Clears(progress, kind) ==> !r[i].isUploading)
      && (!Clears(progress, kind) ==> r[i].isUploading == q[i].isUploading)
  {
  }

  /** The operations a client performs on the panel, for reasoning about whole histories. */
  datatype Op =
    | AddOp(f: FileInfo)
    | UpdateOp(f: FileInfo, progress: real, kind: string, msg: string)
    | CleanOp

  /** The queue after a history of operations; an update of an unknown id raises and changes nothing. */
  function Run(q: seq<Entry>, ops: seq<Op>): seq<Entry>
    decreases |ops|
  {
    if ops == [] then q
    else
      var q1 := match ops[0]
        case AddOp(f) => Added(q, f)
        case UpdateOp(f, p, k, m) => if IndexOf(q, f.id).Some? then Updated(q, f, p, k, m) else q
        case CleanOp => q;
      Run(q1, ops[1..])
  }

  /**
   * Over any history, ids stay unique, the queue only grows and no cleared flag
   * is ever set again: only a fresh id enters as uploading.
   */
  lemma {:induction false} RunEvolves(q: seq<Entry>, ops: seq<Op>)
    requires UniqueIds(q)
    ensures UniqueIds(Run(q, ops)) && Evolves(q, Run(q, ops))
    decreases |ops|
  {
    if ops != [] {
      var q1 := match ops[0]
        case AddOp(f) => Added(q, f)
        case UpdateOp(f, p, k, m) => if IndexOf(q, f.id).Some? then Updated(q, f, p, k, m) else q
        case CleanOp => q;
      match ops[0] {
        case AddOp(f) => AddedProperties(q, f);
        case UpdateOp(f, p, k, m) =>
          if IndexOf(q, f.id).Some? { UpdatedProperties(q, f, p, k, m); }
        case CleanOp =>
      }
      assert Run(q, ops) == Run(q1, ops[1..]);
      RunEvolves(q1, ops[1..]);
      EvolvesTransitive(q, q1, Run(q, ops));
    }
  }

  /**
   * The log panel: its queue, the ids of the bars currently shown in its body,
   * its status bar, and its frame (shown or not, a dialog over `dialogEl` or a window).
   */
  class LogPanel {
    var queue: seq<Entry>
    var displayed: seq<string>
    var status: Option<StatusLine>
    var visible: bool
    const inDialog: bool

    ghost predicate Valid()
      reads this
    {
      && UniqueIds(queue)
      && forall k :: 0 <= k < |displayed| ==> IndexOf(queue, displayed[k]).Some?
    }

    /** `initComponent`: an empty queue and an empty panel; the frame is hidden. */
    constructor (inDialog: bool)
      ensures Valid()
      ensures queue == [] && displayed == [] && status == None && !visible
      ensures this.inDialog == inDialog
    {
      queue := [];
      displayed := [];
      status := None;
      visible := false;
      this.inDialog := inDialog;
    }

    /** `getProgress(id)`: the first entry whose id matches, None for `false`. */
    method GetProgress(id: string) returns (r: Option<Entry>)
      ensures r.None? <==> forall i :: 0 <= i < |queue| ==> queue[i].id != id
      ensures r.Some? ==> exists i :: 0 <= i < |queue| && queue[i] == r.value && IndexOf(queue, id) == Some(i)
    {
      var i := 0;
      while i < |queue|
        invariant 0 <= i <= |queue|
        invariant forall j :: 0 <= j < i ==> queue[j].id != id
      {
        if queue[i].id == id {
          assert IndexOf(queue, id) == Some(i);
          return Some(queue[i]);
        }
        i := i + 1;
      }
      return None;
    }

    /** `getUploadingCount`: how many bars are still uploading. */
    method GetUploadingCount() returns (count: nat)
      ensures count == CountUploading(queue)
      ensures count <= |queue|
    {
      count := 0;
      var i := 0;
      while i < |queue|
        invariant 0 <= i <= |queue|
        invariant count == CountUploading(queue[..i])
      {
        assert queue[..i + 1][..i] == queue[..i];
        if queue[i].isUploading {
          count := count + 1;
        }
        i := i + 1;
      }
      assert queue[..i] == queue;
    }

    /** `addProgress(file)`: a new bar and queue entry for an unknown id, nothing otherwise. */
    method AddProgress(file: FileInfo)
      requires Valid()
      modifies this`queue, this`displayed
      ensures Valid()
      ensures queue == Added(old(queue), file)
      ensures displayed == if IndexOf(old(queue), file.id).Some? then old(displayed) else old(displayed) + [file.id]
      ensures status == old(status) && visible == old(visible)
    {
      AddedProperties(queue, file);
      var p := GetProgress(file.id);
      if p.None? {
        var q0 := queue;
        queue := queue + [NewEntry(file)];
        displayed := displayed + [file.id];
        forall k | 0 <= k < |displayed|
          ensures IndexOf(queue, displayed[k]).Some?
        {
          if k < |displayed| - 1 {
            var j := IndexOf(q0, displayed[k]).value;
            assert queue[j] == q0[j];
          } else {
            assert queue[|q0|].id == file.id;
          }
        }
      }
    }

    /**
     * `updateProgress(config)`: on the file's bar, set the value and the resolved
     * type and clear the flag at progress 1 or on error; then set the status
     * counter. For an id not in the queue, `getProgress` gives `false` and the
     * call raises before anything changes (`ok` is false).
     */
    method UpdateProgress(file: FileInfo, progress: real, kind: string, msg: string) returns (ok: bool)
      requires Valid()
      modifies this`queue, this`status
      ensures Valid()
      ensures ok == IndexOf(old(queue), file.id).Some?
      ensures ok ==> queue == Updated(old(queue), file, progress, kind, msg)
      ensures ok ==> status == Some(CounterLine(queue))
      ensures !ok ==> queue == old(queue) && status == old(status)
      ensures displayed == old(displayed) && visible == old(visible)
    {
      var p := GetProgress(file.id);
      if p.None? {
        return false;
      }
      UpdatedProperties(queue, file, progress, kind, msg);
      var q0 := queue;
      var i := IndexOf(queue, file.id).value;
      var uploading := p.value.isUploading;
      if progress == 1.0 || kind == "error" {
        uploading := false;
      }
      queue := queue[i := Entry(p.value.id, uploading, progress, ResolveKind(progress, kind), file.name, msg)];
      assert Ids(queue) == Ids(q0);
      var count := GetUploadingCount();
      CountsPartition(queue);
      if count != 0 {
        var done := |queue| - count + 1;
        var msg := "envoie " + (if |queue| > 1 then "des fichiers" else "du fichier");
        SetStatus("loading", msg + " (" + Fraction(done, |queue|));
      } else {
        var done := |queue| - count;
        SetStatus("info", "envoie terminé " + " (" + Fraction(done, |queue|));
      }
      return true;
    }

    /** `setStatus(type, msg)`: the status bar shows `msg` with the icon of `type`. */
    method SetStatus(kind: string, text: string)
      modifies this`status
      ensures status == Some(StatusLine(kind, text))
    {
      status := Some(StatusLine(kind, text));
    }

    /** `cleanLogPanel`: removes every bar from the panel; the queue, and so every count, stays. */
    method CleanLogPanel()
      requires Valid()
      modifies this`displayed
      ensures Valid()
      ensures displayed == []
    {
      displayed := [];
    }

    /** `show()` on the frame that hosts the panel. */
    method Show()
      modifies this`visible
      ensures visible
    {
      visible := true;
    }
  }
}
