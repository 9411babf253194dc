/** The pieces of java.lang.String (and of Java arrays) that the smbios scanner relies on:
    indexOf/contains, trim, split with the default limit, substring and array indexing.
    Strings are `seq<char>`, whose elements are Unicode scalar values; a Java string is a
    sequence of UTF-16 code units, so lengths and offsets agree with Java only on text inside
    the Basic Multilingual Plane. */
module JavaLang {

  datatype Option<T> = None | Some(value: T)

  /** The unchecked exceptions the modelled code can raise. */
  datatype Exception = ArrayIndexOutOfBounds | StringIndexOutOfBounds

  /** A value, or the exception thrown while computing it. */
  datatype Result<T> = Ok(value: T) | Thrown(exception: Exception)

  /** How a void Java method completed. */
  datatype Completion = Normal | Threw(exception: Exception)

  // ---------------------------------------------------------------- indexOf / contains

  /** `t` occurs in `s` starting at index `i`. */
  predicate OccursAt(s: string, t: string, i: nat) {
    i + |t| <= |s| && s[i..i + |t|] == t
  }

  /** `s.indexOf(t, from)`: the least index at or after `from` where `t` occurs. */
  function IndexOfFrom(s: string, t: string, from: nat): (r: Option<nat>)
    ensures r.Some? ==> from <= r.value && OccursAt(s, t, r.value)
    ensures r.Some? ==> forall j: nat :: from <= j < r.value ==> !OccursAt(s, t, j)
    ensures r.None? ==> forall j: nat :: from <= j ==> !OccursAt(s, t, j)
    decreases |s| - from
  {
    if from + |t| > |s| then None
    else if OccursAt(s, t, from) then Some(from)
    else IndexOfFrom(s, t, from + 1)
  }

  /** `s.indexOf(t)`. */
  function IndexOf(s: string, t: string): (r: Option<nat>)
    ensures r.Some? ==> OccursAt(s, t, r.value) && forall j: nat :: j < r.value ==> !OccursAt(s, t, j)
    ensures r.None? ==> forall j: nat :: !OccursAt(s, t, j)
  {
    IndexOfFrom(s, t, 0)
  }

  /** `s.contains(t)`. */
  predicate Contains(s: string, t: string) {
    IndexOf(s, t).Some?
  }

  /** `s.contains(t)` holds exactly when `t` occurs somewhere in `s`. */
  lemma ContainsMeans(s: string, t: string)
    ensures Contains(s, t) <==> exists i: nat :: OccursAt(s, t, i)
  {
  }

  /** A string containing `t` contains every prefix of `t`. */
  lemma ContainsPrefix(s: string, t: string, u: string)
    requires Contains(s, t) && |u| <= |t| && t[..|u|] == u
    ensures Contains(s, u)
  {
    var i := IndexOf(s, t).value;
    assert s[i..i + |u|] == s[i..i + |t|][..|u|];
    assert OccursAt(s, u, i);
    ContainsMeans(s, u);
  }

  /** A slice contains only what the whole string contains. */
  lemma ContainsInSlice(s: string, lo: nat, hi: nat, t: string)
    requires lo <= hi <= |s| && Contains(s[lo..hi], t)
    ensures Contains(s, t)
  {
    var j := IndexOf(s[lo..hi], t).value;
    assert s[lo..hi][j..j + |t|] == s[lo + j..lo + j + |t|];
    assert OccursAt(s, t, lo + j);
    ContainsMeans(s, t);
  }

  // ---------------------------------------------------------------- trim

  /** The characters String.trim removes: every code unit up to U+0020. */
  predicate IsTrimmable(c: char) {
    c <= ' '
  }

  /** Index of the first character at or after `i` that trim keeps, or |s|. */
  function SkipLeading(s: string, i: nat): (r: nat)
    requires i <= |s|
    ensures i <= r <= |s|
    ensures forall k :: i <= k < r ==> IsTrimmable(s[k])
    ensures r < |s| ==> !IsTrimmable(s[r])
    decreases |s| - i
  {
    if i < |s| && IsTrimmable(s[i]) then SkipLeading(s, i + 1) else i
  }

  /** One past the last character in `s[lo..hi]` that trim keeps, or `lo`. */
  function SkipTrailing(s: string, lo: nat, hi: nat): (r: nat)
    requires lo <= hi <= |s|
    ensures lo <= r <= hi
    ensures forall k :: r <= k < hi ==> IsTrimmable(s[k])
    ensures lo < r ==> !IsTrimmable(s[r - 1])
    decreases hi
  {
    if lo < hi && IsTrimmable(s[hi - 1]) then SkipTrailing(s, lo, hi - 1) else hi
  }

  /** `s.trim()`: `s` without its leading and trailing characters up to U+0020. */
  function Trim(s: string): (r: string)
    ensures exists lo, hi :: 0 <= lo <= hi <= |s| && r == s[lo..hi]
              && (forall k :: 0 <= k < lo ==> IsTrimmable(s[k]))
              && (forall k :: hi <= k < |s| ==> IsTrimmable(s[k]))
    ensures r != [] ==> !IsTrimmable(r[0]) && !IsTrimmable(r[|r| - 1])
    ensures r == [] <==> forall k :: 0 <= k < |s| ==> IsTrimmable(s[k])
  {
    var lo := SkipLeading(s, 0);
    var hi := SkipTrailing(s, lo, |s|);
    assert forall k :: 0 <= k < |s| ==> (k < lo || hi <= k ==> IsTrimmable(s[k]));
    assert lo < hi ==> !IsTrimmable(s[lo]);
    s[lo..hi]
  }

  /** Trimming twice is trimming once. */
  lemma TrimIdempotent(s: string)
    ensures Trim(Trim(s)) == Trim(s)
  {
    var t := Trim(s);
    if t != [] {
      assert SkipLeading(t, 0) == 0;
      assert SkipTrailing(t, 0, |t|) == |t|;
    }
  }

  // ---------------------------------------------------------------- split

  /** The pieces of `s` joined back together with `m` between them. */
  function Join(ps: seq<string>, m: string): string
    requires |ps| >= 1
  {
    if |ps| == 1 then ps[0] else ps[0] + m + Join(ps[1..], m)
  }

  /** The pieces `s` falls into around the leftmost, non-overlapping occurrences of `m`,
      before String.split drops the trailing empty ones. */
  function Pieces(s: string, m: string): (r: seq<string>)
    requires m != []
    ensures |r| >= 1
    ensures Join(r, m) == s
    ensures forall k :: 0 <= k < |r| ==> !Contains(r[k], m)
    decreases |s|
  {
    match IndexOf(s, m)
    case None => [s]
    case Some(i) =>
      var rest := Pieces(s[i + |m|..], m);
      assert !Contains(s[..i], m) by {
        ContainsMeans(s[..i], m);
        forall j: nat ensures !OccursAt(s[..i], m, j) {
          if j + |m| <= i {
            assert s[..i][j..j + |m|] == s[j..j + |m|];
            assert j < i && !OccursAt(s, m, j);
          }
        }
      }
      assert s == s[..i] + m + s[i + |m|..];
      [s[..i]] + rest
  }

  /** `ps` without its trailing empty strings. */
  function DropTrailingEmpty(ps: seq<string>): (r: seq<string>)
    ensures |r| <= |ps| && r == ps[..|r|]
    ensures r == [] || r[|r| - 1] != []
    ensures forall k :: |r| <= k < |ps| ==> ps[k] == []
  {
    if ps == [] then []
    else if ps[|ps| - 1] == [] then DropTrailingEmpty(ps[..|ps| - 1])
    else ps
  }

  /** `s.split(m)` (limit 0) for a marker `m` without regular-expression metacharacters:
      `s` itself when `m` does not occur, otherwise the pieces around the occurrences of `m`
      with the trailing empty ones removed. */
  function Split(s: string, m: string): (r: seq<string>)
    requires m != []
    // no match: the text itself is the only element
    ensures !Contains(s, m) ==> r == [s]
    // otherwise a prefix of the pieces, cut after the last non-empty one
    ensures Contains(s, m) ==>
      && |r| <= |Pieces(s, m)| && r == Pieces(s, m)[..|r|]
      && (r == [] || r[|r| - 1] != [])
      && forall k :: |r| <= k < |Pieces(s, m)| ==> Pieces(s, m)[k] == []
    // no element contains the marker
    ensures forall k :: 0 <= k < |r| ==> !Contains(r[k], m)
  {
    if !Contains(s, m) then [s] else DropTrailingEmpty(Pieces(s, m))
  }

  /** `a[k]`, throwing when `k` is out of range. */
  function At(a: seq<string>, k: nat): (r: Result<string>)
    ensures r.Ok? <==> k < |a|
    ensures r.Ok? ==> r.value == a[k]
  {
    if k < |a| then Ok(a[k]) else Thrown(ArrayIndexOutOfBounds)
  }

  /** `s` is `m` repeated zero or more times. */
  predicate OnlyMarkers(s: string, m: string)
    requires m != []
    decreases |s|
  {
    s == [] || (OccursAt(s, m, 0) && OnlyMarkers(s[|m|..], m))
  }

  /** The text after the first occurrence of `m` in `s`. */
  function After(s: string, m: string): string
    requires Contains(s, m)
  {
    s[IndexOf(s, m).value + |m|..]
  }

  /** The text between the first occurrence of `m` in `s` and the next one, or the end of `s`. */
  function Between(s: string, m: string): string
    requires Contains(s, m)
  {
    var rest := After(s, m);
    match IndexOf(rest, m)
    case None => rest
    case Some(j) => rest[..j]
  }

  /** Every piece is empty exactly when the text is the marker repeated. */
  lemma {:induction false} PiecesAllEmpty(s: string, m: string)
    requires m != []
    ensures (forall k :: 0 <= k < |Pieces(s, m)| ==> Pieces(s, m)[k] == []) <==> OnlyMarkers(s, m)
    decreases |s|
  {
    match IndexOf(s, m)
    case None =>
      assert Pieces(s, m) == [s];
      assert s != [] ==> !OccursAt(s, m, 0);
    case Some(i) =>
      var tail := s[i + |m|..];
      PiecesAllEmpty(tail, m);
      assert Pieces(s, m) == [s[..i]] + Pieces(tail, m);
      assert s != [];
      if i == 0 {
        assert tail == s[|m|..];
      } else {
        assert !OccursAt(s, m, 0);
        assert Pieces(s, m)[0] != [];
      }
  }

  /** `line.split(m)[1]`, for a line that contains `m`, is the text between the first
      occurrence of `m` and the next one (or the end of the line); it throws exactly when
      nothing but further copies of `m` follows the first occurrence. */
  lemma SplitSecond(line: string, m: string)
    requires m != [] && Contains(line, m)
    ensures At(Split(line, m), 1).Ok? <==> !OnlyMarkers(After(line, m), m)
    ensures At(Split(line, m), 1).Ok? ==> At(Split(line, m), 1).value == Between(line, m)
  {
    var i := IndexOf(line, m).value;
    var rest := After(line, m);
    var ps := Pieces(line, m);
    assert ps == [line[..i]] + Pieces(rest, m);
    PiecesAllEmpty(rest, m);
    var r := DropTrailingEmpty(ps);
    assert Split(line, m) == r;
    if OnlyMarkers(rest, m) {
      assert forall k :: 1 <= k < |ps| ==> ps[k] == Pieces(rest, m)[k - 1];
    } else {
      var k :| 0 <= k < |Pieces(rest, m)| && Pieces(rest, m)[k] != [];
      assert ps[k + 1] != [];
      assert r[1] == ps[1] == Pieces(rest, m)[0];
    }
  }

  /** In particular, a marker that ends the line makes `split(m)[1]` throw. */
  lemma SplitSecondThrowsAtEnd(line: string, m: string)
    requires m != [] && Contains(line, m) && After(line, m) == []
    ensures At(Split(line, m), 1) == Thrown(ArrayIndexOutOfBounds)
  {
    SplitSecond(line, m);
  }

  // ---------------------------------------------------------------- substring

  /** `s.substring(b, e)`, throwing when the bounds are out of range. */
  function Substring(s: string, b: nat, e: nat): (r: Result<string>)
    ensures r.Ok? <==> b <= e <= |s|
    ensures r.Ok? ==> |r.value| == e - b && forall k :: 0 <= k < e - b ==> r.value[k] == s[b + k]
    ensures r.Thrown? ==> r.exception == StringIndexOutOfBounds
  {
    if b <= e <= |s| then Ok(s[b..e]) else Thrown(StringIndexOutOfBounds)
  }
}
