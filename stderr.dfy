/** Reading the extractor's diagnostic output, one chunk of text at a time
    (server.js, the `proc.stderr` data handler): the announced destination
    file and the progress percentage. */
module Stderr {
  import opened Wrappers
  import opened Numbers

  // ----------------------------------------- percentage: /(\d{1,3}\.\d)%/

  /** The pattern matches at position i with k digits before the point. */
  predicate PercentAt(s: string, i: nat, k: nat) {
    && 1 <= k <= 3
    && i + k + 3 <= |s|
    && AllDigits(s[i..i + k])
    && s[i + k] == '.'
    && IsDigit(s[i + k + 1])
    && s[i + k + 2] == '%'
  }

  /** The captured text "d.d" to "ddd.d", counted in tenths. */
  function CaptureTenths(s: string, i: nat, k: nat): nat
    requires PercentAt(s, i, k)
  {
    DigitsValue(s[i..i + k]) * 10 + DigitValue(s[i + k + 1])
  }

  /** The match starting at i as a backtracking engine finds it: `\d{1,3}` is
      greedy, so three digits are tried first, then two, then one. */
  function PercentMatchAt(s: string, i: nat): Option<nat> {
    if PercentAt(s, i, 3) then Some(CaptureTenths(s, i, 3))
    else if PercentAt(s, i, 2) then Some(CaptureTenths(s, i, 2))
    else if PercentAt(s, i, 1) then Some(CaptureTenths(s, i, 1))
    else None
  }

  /** At a given position at most one digit count fits, since a digit is
      never a point: the order in which the engine tries them is immaterial. */
  lemma PercentAtUnique(s: string, i: nat, k1: nat, k2: nat)
    requires PercentAt(s, i, k1) && PercentAt(s, i, k2)
    ensures k1 == k2
  {
  }

  /** The match at i exists exactly when the pattern fits there with some
      digit count, and its value is that capture's. */
  lemma PercentMatchAtIsPattern(s: string, i: nat, k: nat)
    ensures PercentAt(s, i, k) ==> PercentMatchAt(s, i) == Some(CaptureTenths(s, i, k))
    ensures PercentMatchAt(s, i).Some? ==> exists k' :: PercentAt(s, i, k')
  {
    if PercentAt(s, i, k) {
      if PercentAt(s, i, 3) { PercentAtUnique(s, i, k, 3); }
      else if PercentAt(s, i, 2) { PercentAtUnique(s, i, k, 2); }
    }
    if PercentMatchAt(s, i).Some? {
      if PercentAt(s, i, 3) { assert PercentAt(s, i, 3); }
      else if PercentAt(s, i, 2) { assert PercentAt(s, i, 2); }
      else { assert PercentAt(s, i, 1); }
    }
  }

  /** The captured text read by `parseFloat` is the value counted here, and
      it lies between 0.0 and 999.9. */
  lemma CaptureIsParsed(s: string, i: nat, k: nat)
    requires PercentAt(s, i, k)
    ensures DecimalTenths(s[i..i + k + 2]) == Some(CaptureTenths(s, i, k))
    ensures CaptureTenths(s, i, k) <= 9999
  {
    var c := s[i..i + k + 2];
    assert c[..|c| - 2] == s[i..i + k];
    assert c[|c| - 2] == '.' && c[|c| - 1] == s[i + k + 1];
    ShortDecimalBound(c);
  }

  /** The leftmost match at or after position i, as (position, tenths). */
  function FindPercentFrom(s: string, i: nat): (r: Option<(nat, nat)>)
    decreases |s| - i
    ensures r.Some? ==> i <= r.value.0 < |s| && PercentMatchAt(s, r.value.0) == Some(r.value.1)
    ensures r.Some? ==> forall j :: i <= j < r.value.0 ==> PercentMatchAt(s, j).None?
    ensures r.None? ==> forall j :: i <= j ==> PercentMatchAt(s, j).None?
  {
    if i >= |s| then None
    else match PercentMatchAt(s, i)
      case Some(v) => Some((i, v))
      case None => FindPercentFrom(s, i + 1)
  }

  /** `s.match(/(\d{1,3}\.\d)%/)`, read with `parseFloat`: the progress
      value a chunk reports, or nothing. */
  function FindPercent(s: string): (r: Option<nat>)
    ensures r.Some? ==> r.value <= 9999
    ensures r.Some? <==> exists i: nat, k: nat :: PercentAt(s, i, k)
  {
    var m := FindPercentFrom(s, 0);
    if m.Some? then
      var i := m.value.0;
      PercentMatchAtIsPattern(s, i, 0);
      var k :| PercentAt(s, i, k);
      PercentMatchAtIsPattern(s, i, k);
      CaptureIsParsed(s, i, k);
      Some(m.value.1)
    else
      assert forall i: nat, k: nat :: PercentAt(s, i, k) ==> false by {
        forall i: nat, k: nat | PercentAt(s, i, k) ensures false {
          PercentMatchAtIsPattern(s, i, k);
        }
      }
      None
  }

  /** The value reported is that of the leftmost place where the pattern fits. */
  lemma FindPercentIsLeftmost(s: string, i: nat, k: nat)
    requires PercentAt(s, i, k)
    requires forall j: nat, k': nat :: j < i ==> !PercentAt(s, j, k')
    ensures FindPercent(s) == Some(CaptureTenths(s, i, k))
  {
    PercentMatchAtIsPattern(s, i, k);
    var m := FindPercentFrom(s, 0);
    assert m.Some?;
  }

  // ------------------------------------- destination: /Destination: (.+)/

  const DestinationTag := "Destination: "

  /** The characters `.` does not match without the `s` flag. */
  predicate IsLineTerminator(c: char) {
    c == '\n' || c == '\r' || c == '\U{2028}' || c == '\U{2029}'
  }

  /** The tag occurs at i and at least one character of the same line follows it. */
  predicate DestinationAt(s: string, i: nat) {
    i + |DestinationTag| < |s|
    && s[i..i + |DestinationTag|] == DestinationTag
    && !IsLineTerminator(s[i + |DestinationTag|])
  }

  /** The greedy `.+`: everything up to the end of the line. */
  function LineRest(s: string): (r: string)
    ensures |r| <= |s| && r == s[..|r|]
    ensures forall j :: 0 <= j < |r| ==> !IsLineTerminator(r[j])
    ensures |r| < |s| ==> IsLineTerminator(s[|r|])
  {
    if s == [] || IsLineTerminator(s[0]) then [] else [s[0]] + LineRest(s[1..])
  }

  /** The leftmost position at or after i where the tag matches. */
  function FindDestinationFrom(s: string, i: nat): (r: Option<nat>)
    decreases |s| - i
    ensures r.Some? ==> i <= r.value && DestinationAt(s, r.value)
    ensures r.Some? ==> forall j :: i <= j < r.value ==> !DestinationAt(s, j)
    ensures r.None? ==> forall j :: i <= j ==> !DestinationAt(s, j)
  {
    if i >= |s| then None
    else if DestinationAt(s, i) then Some(i)
    else FindDestinationFrom(s, i + 1)
  }

  /** `s.match(/Destination: (.+)/)[1]`: the rest of the first line that
      announces a destination with a non-empty name. */
  function FindDestination(s: string): (r: Option<string>)
    ensures r.Some? ==> |r.value| >= 1
    ensures r.Some? ==> forall j :: 0 <= j < |r.value| ==> !IsLineTerminator(r.value[j])
    ensures r.Some? <==> exists i: nat :: DestinationAt(s, i)
  {
    match FindDestinationFrom(s, 0)
    case Some(i) =>
      var rest := s[i + |DestinationTag|..];
      assert rest[0] == s[i + |DestinationTag|];
      Some(LineRest(rest))
    case None => None
  }

  /** A chunk that names the destination on its own line yields that name. */
  lemma FindDestinationOfLine(prefix: string, name: string, suffix: string)
    requires forall i: nat :: !DestinationAt(prefix + DestinationTag + name, i) || i >= |prefix|
    requires |name| >= 1 && forall j :: 0 <= j < |name| ==> !IsLineTerminator(name[j])
    requires suffix == [] || IsLineTerminator(suffix[0])
    ensures FindDestination(prefix + DestinationTag + name + suffix) == Some(name)
  {
    var s := prefix + DestinationTag + name + suffix;
    var p := |prefix|;
    var n := |DestinationTag|;
    assert s[p..p + n] == DestinationTag;
    assert s[p + n] == name[0];
    assert DestinationAt(s, p);
    var m := FindDestinationFrom(s, 0);
    assert m.Some?;
    assert m.value >= p by {
      var j := m.value;
      var q := prefix + DestinationTag + name;
      if j < p {
        assert s[j..j + n] == q[j..j + n] && s[j + n] == q[j + n];
        assert DestinationAt(q, j);
      }
    }
    var rest := s[p + n..];
    assert rest == name + suffix;
    LineRestOf(name, suffix);
  }

  lemma {:induction false} LineRestOf(name: string, suffix: string)
    requires forall j :: 0 <= j < |name| ==> !IsLineTerminator(name[j])
    requires suffix == [] || IsLineTerminator(suffix[0])
    ensures LineRest(name + suffix) == name
  {
    if name != [] {
      assert (name + suffix)[1..] == name[1..] + suffix;
      LineRestOf(name[1..], suffix);
    } else {
      assert name + suffix == suffix;
    }
  }

  // ------------------------------------------ path.basename (POSIX form)

  function TrimTrailingSlashes(p: string): (r: string)
    ensures |r| <= |p| && r == p[..|r|]
    ensures r == [] || r[|r| - 1] != '/'
    ensures forall i :: |r| <= i < |p| ==> p[i] == '/'
  {
    if p != [] && p[|p| - 1] == '/' then TrimTrailingSlashes(p[..|p| - 1]) else p
  }

  function AfterLastSlash(p: string): (r: string)
    ensures |r| <= |p| && r == p[|p| - |r|..]
    ensures '/' !in r
    ensures |r| < |p| ==> p[|p| - |r| - 1] == '/'
  {
    if p == [] || p[|p| - 1] == '/' then [] else AfterLastSlash(p[..|p| - 1]) + [p[|p| - 1]]
  }

  /** Node's `path.basename` on POSIX: trailing slashes are ignored, then
      the part after the last slash is kept. */
  function Basename(p: string): (r: string)
    ensures '/' !in r
  {
    AfterLastSlash(TrimTrailingSlashes(p))
  }

  /** A name without slashes is its own base name. */
  lemma {:induction false} AfterLastSlashOfName(name: string)
    requires '/' !in name
    ensures AfterLastSlash(name) == name
  {
    if name != [] {
      assert name[|name| - 1] in name;
      AfterLastSlashOfName(name[..|name| - 1]);
    }
  }

  /** The base name of "dir/name" (with any number of trailing slashes) is
      "name". */
  lemma BasenameOfPath(dir: string, name: string, slashes: nat)
    requires |name| >= 1 && '/' !in name
    ensures Basename(dir + "/" + name + seq(slashes, _ => '/')) == name
  {
    var t := seq(slashes, _ => '/');
    var p := dir + "/" + name + t;
    TrimDropsSlashes(dir + "/" + name, slashes);
    var q := dir + "/" + name;
    assert name[|name| - 1] in name;
    AfterLastSlashAppend(dir + "/", name);
  }

  lemma {:induction false} TrimDropsSlashes(p: string, slashes: nat)
    requires p != [] && p[|p| - 1] != '/'
    ensures TrimTrailingSlashes(p + seq(slashes, _ => '/')) == p
  {
    if slashes == 0 {
      assert p + seq(0, _ => '/') == p;
    } else {
      var q := p + seq(slashes, _ => '/');
      assert q[..|q| - 1] == p + seq(slashes - 1, _ => '/');
      TrimDropsSlashes(p, slashes - 1);
    }
  }

  lemma {:induction false} AfterLastSlashAppend(dir: string, name: string)
    requires dir != [] && dir[|dir| - 1] == '/'
    requires '/' !in name
    ensures AfterLastSlash(dir + name) == name
    decreases |name|
  {
    if name == [] {
      assert dir + name == dir;
    } else {
      var q := dir + name;
      assert q[|q| - 1] == name[|name| - 1] && name[|name| - 1] in name;
      assert q[..|q| - 1] == dir + name[..|name| - 1];
      AfterLastSlashAppend(dir, name[..|name| - 1]);
    }
  }

  // ------------------------------------------------- one chunk's effect

  /** The stored file name after a chunk: the base name of the announced
      destination, or the previous name when the chunk announces none. */
  function NextFilename(filename: string, chunk: string): (r: string)
    ensures FindDestination(chunk).None? ==> r == filename
    ensures FindDestination(chunk).Some? ==> '/' !in r
  {
    match FindDestination(chunk)
    case Some(d) => Basename(d)
    case None => filename
  }
}
