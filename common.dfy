/**
 * Shared vocabulary of the uploader model: an Option type for JavaScript's
 * "value or false/undefined" returns, and the decimal rendering JavaScript
 * applies when a non-negative integer is concatenated to a string.
 */
module Common {

  datatype Option<T> = None | Some(value: T)

  /** A file as the connectors hand it over: the id the log panel joins on, its name and size in bytes. */
  datatype FileInfo = FileInfo(id: string, name: string, size: nat)

  /** What a status bar shows after `setStatus(type, msg)`: the icon kind and the text. */
  datatype StatusLine = StatusLine(kind: string, text: string)

  /** A host component offered to the uploader: its xtype and its `uploadLogPanelTarget` flag. */
  datatype Component = Component(xtype: string, uploadLogPanelTarget: bool)

  /**
   * The first position of `id` in `ids`: what an `Ext.each` loop whose callback
   * returns false on the first match yields, None where it runs to the end.
   */
  function FirstIndex(ids: seq<string>, id: string): (r: Option<nat>)
    ensures r.None? <==> forall i :: 0 <= i < |ids| ==> ids[i] != id
    ensures r.Some? ==> r.value < |ids| && ids[r.value] == id
    ensures r.Some? ==> forall j :: 0 <= j < r.value ==> ids[j] != id
  {
    if ids == [] then None
    else if ids[0] == id then Some(0)
    else match FirstIndex(ids[1..], id)
      case None => None
      case Some(k) => Some(k + 1)
  }

  /** Appending never moves a first occurrence that already exists. */
  lemma FirstIndexAppend(ids: seq<string>, x: string, id: string)
    ensures FirstIndex(ids + [x], id) ==
      if FirstIndex(ids, id).Some? then FirstIndex(ids, id)
      else if x == id then Some(|ids|) else None
  {
    var r := FirstIndex(ids + [x], id);
    var w := ids + [x];
    assert forall i :: 0 <= i < |ids| ==> w[i] == ids[i];
    if FirstIndex(ids, id).Some? {
      var k := FirstIndex(ids, id).value;
      assert w[k] == id;
    } else if x == id {
      assert w[|ids|] == id;
    }
  }

  predicate IsDigit(c: char) {
    '0' <= c <= '9'
  }

  function DigitChar(d: nat): (c: char)
    requires d < 10
    ensures IsDigit(c) && (c as int) - ('0' as int) == d
  {
    ['0', '1', '2', '3', '4', '5', '6', '7', '8', '9'][d]
  }

  /** Decimal text of a non-negative integer, most significant digit first, no leading zero. */
  function NatToString(n: nat): (s: string)
    ensures |s| >= 1
    ensures forall i :: 0 <= i < |s| ==> IsDigit(s[i])
    ensures |s| > 1 ==> s[0] != '0'
  {
    if n < 10 then [DigitChar(n)] else NatToString(n / 10) + [DigitChar(n % 10)]
  }

  function DigitValue(c: char): (d: nat)
    requires IsDigit(c)
    ensures d < 10
  {
    (c as int) - ('0' as int)
  }

  /** Reads a string of decimal digits back as a number (the inverse of NatToString). */
  function ParseNat(s: string): nat
    requires forall i :: 0 <= i < |s| ==> IsDigit(s[i])
  {
    if s == [] then 0
    else ParseNat(s[..|s| - 1]) * 10 + DigitValue(s[|s| - 1])
  }

  lemma {:induction false} ParseNatToString(n: nat)
    ensures ParseNat(NatToString(n)) == n
  {
    var s := NatToString(n);
    if n >= 10 {
      ParseNatToString(n / 10);
      assert s[..|s| - 1] == NatToString(n / 10);
    }
  }

  /** The length of the run of digits that starts `w`. */
  function LeadingDigits(w: string): (n: nat)
    ensures n <= |w|
  {
    if w != [] && IsDigit(w[0]) then 1 + LeadingDigits(w[1..]) else 0
  }

  lemma {:induction false} LeadingDigitsOf(s: string, t: string)
    requires forall i :: 0 <= i < |s| ==> IsDigit(s[i])
    requires |t| > 0 && !IsDigit(t[0])
    ensures LeadingDigits(s + t) == |s|
  {
    if s != [] {
      assert (s + t)[1..] == s[1..] + t;
      LeadingDigitsOf(s[1..], t);
    } else {
      assert s + t == t;
    }
  }

  /**
   * A rendered number followed by a text that starts with a non-digit reads back
   * unambiguously: both the number and the rest are determined.
   */
  lemma NumberThenText(a: nat, b: nat, t1: string, t2: string)
    requires |t1| > 0 && |t2| > 0 && !IsDigit(t1[0]) && !IsDigit(t2[0])
    requires NatToString(a) + t1 == NatToString(b) + t2
    ensures a == b && t1 == t2
  {
    var s1, s2 := NatToString(a), NatToString(b);
    var w := s1 + t1;
    LeadingDigitsOf(s1, t1);
    LeadingDigitsOf(s2, t2);
    assert s1 == w[..|s1|] == s2;
    assert t1 == w[|s1|..] == t2;
    NatToStringInjective(a, b);
  }

  /** Different numbers render differently, so rendered counters and generated ids never collide. */
  lemma NatToStringInjective(a: nat, b: nat)
    ensures NatToString(a) == NatToString(b) <==> a == b
  {
    if NatToString(a) == NatToString(b) {
      ParseNatToString(a);
      ParseNatToString(b);
    }
  }
}
