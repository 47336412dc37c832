/** The textual tests the backend makes on rendered expressions, indentation,
    and separated lists. */
module Text {

  predicate StartsWith(s: string, p: string) {
    |p| <= |s| && s[..|p|] == p
  }

  predicate EndsWith(s: string, p: string) {
    |p| <= |s| && s[|s| - |p|..] == p
  }

  /** `p` occurs in `s` at position `i`. */
  predicate OccursAt(s: string, p: string, i: int) {
    0 <= i <= |s| - |p| && s[i..i + |p|] == p
  }

  /** `s.find(p) != npos`: `p` occurs somewhere in `s`. */
  predicate Contains(s: string, p: string) {
    exists i :: 0 <= i <= |s| && OccursAt(s, p, i)
  }

  /** Appending in two steps appends the two parts joined. */
  lemma AppendAssoc<T>(a: seq<T>, b: seq<T>, c: seq<T>)
    ensures a + b + c == a + (b + c)
  {
  }

  /** `p` is a prefix of `p + x`. */
  lemma StartsWithSelf(p: string, x: string)
    ensures StartsWith(p + x, p)
  {
    assert (p + x)[..|p|] == p;
  }

  /** A prefix of `a` is a prefix of `a + b`. */
  lemma StartsWithAppend(a: string, b: string, p: string)
    requires StartsWith(a, p)
    ensures StartsWith(a + b, p)
  {
    assert (a + b)[..|p|] == a[..|p|];
  }

  /** A text made of an opening, two middle parts and a closing starts with
      the opening and ends with the closing. */
  lemma Enclosed(opening: string, a: string, b: string, closing: string)
    ensures StartsWith(opening + a + b + closing, opening)
    ensures EndsWith(opening + a + b + closing, closing)
  {
    var t := opening + a + b;
    assert (t + closing)[..|opening|] == opening;
    assert (t + closing)[|t + closing| - |closing|..] == closing;
  }

  /** `t` is a non-empty text whose last character ends a line. */
  predicate EndsLine(t: string) {
    |t| > 0 && t[|t| - 1] == '\n'
  }

  /** `t` is empty, or it starts with `p` and ends a line. */
  predicate IndentedBy(t: string, p: string) {
    t == "" || (StartsWith(t, p) && EndsLine(t))
  }

  /** A text `p + x + "\n"`-shaped block is indented by `p`. */
  lemma IndentedBlock(p: string, x: string)
    requires EndsLine(x)
    ensures IndentedBy(p + x, p)
  {
    StartsWithSelf(p, x);
    assert (p + x)[|p + x| - 1] == x[|x| - 1];
  }

  /** Two texts indented by `p` give an indented text when written one after the other. */
  lemma IndentedConcat(a: string, b: string, p: string)
    requires IndentedBy(a, p) && IndentedBy(b, p)
    ensures IndentedBy(a + b, p)
  {
    if a == "" {
      assert a + b == b;
    } else if b == "" {
      assert a + b == a;
    } else {
      StartsWithAppend(a, b, p);
      assert (a + b)[|a + b| - 1] == b[|b| - 1];
    }
  }

  /** The indentation written at scope depth `depth`: two spaces per open scope. */
  function Indent(depth: nat): (r: string)
    ensures |r| == 2 * depth
  {
    if depth == 0 then "" else "  " + Indent(depth - 1)
  }

  /** The parts in order, with `sep` before every part but the first. */
  function Join(parts: seq<string>, sep: string): string
    decreases |parts|
  {
    if |parts| == 0 then ""
    else if |parts| == 1 then parts[0]
    else Join(parts[..|parts| - 1], sep) + sep + parts[|parts| - 1]
  }

  /** Among the first `n` parts, the last follows the others after the separator. */
  lemma JoinPrefix(ps: seq<string>, sep: string, n: nat)
    requires 1 < n <= |ps|
    ensures Join(ps[..n], sep) == Join(ps[..n - 1], sep) + sep + ps[n - 1]
  {
    assert ps[..n][..n - 1] == ps[..n - 1];
    JoinLast(ps[..n], sep);
  }

  /** The last part, after the separator, follows the others. */
  lemma JoinLast(ps: seq<string>, sep: string)
    requires |ps| > 1
    ensures Join(ps, sep) == Join(ps[..|ps| - 1], sep) + sep + ps[|ps| - 1]
  {
  }

  /** Read from the front: the first part, then a separator before each further part. */
  lemma {:induction false} JoinFront(p: string, ps: seq<string>, sep: string)
    ensures Join([p] + ps, sep) == if ps == [] then p else p + sep + Join(ps, sep)
    decreases |ps|
  {
    if |ps| == 1 {
      assert [p] + ps == [p, ps[0]];
      assert [p, ps[0]][..1] == [p];
    } else if |ps| > 1 {
      var init, last := ps[..|ps| - 1], ps[|ps| - 1];
      assert ([p] + ps)[..|ps|] == [p] + init;
      JoinFront(p, init, sep);
      JoinLast([p] + ps, sep);
      JoinLast(ps, sep);
      var j := Join(init, sep);
      assert Join([p] + ps, sep) == p + sep + j + sep + last;
      AppendAssoc(p + sep, j + sep, last);
      AppendAssoc(p + sep, j, sep);
    }
  }

  /** `JoinFront` for a non-empty list of parts. */
  lemma JoinAtFront(ps: seq<string>, sep: string)
    requires |ps| > 0
    ensures Join(ps, sep) == ps[0] + (if |ps| == 1 then "" else sep + Join(ps[1..], sep))
  {
    JoinFront(ps[0], ps[1..], sep);
    assert [ps[0]] + ps[1..] == ps;
  }

  /** Characters at which the regular-expression wildcard `.` does not match. */
  predicate IsLineTerminator(c: char) {
    c == '\n' || c == '\r'
  }

  predicate NoLineTerminator(m: string) {
    forall i :: 0 <= i < |m| ==> !IsLineTerminator(m[i])
  }

  const NullCheckHead: string := "!(arg"
  const NullCheckTail: string := "== NULL)"

  /** The strings the pattern `!\((arg)(.+)(== NULL)\)` matches, one per middle `m`. */
  function NullCheckFor(m: string): string {
    NullCheckHead + m + NullCheckTail
  }

  /** A full match of `!\((arg)(.+)(== NULL)\)`, tested by prefix, suffix and middle. */
  predicate IsNullCheck(cond: string) {
    |cond| > |NullCheckHead| + |NullCheckTail| &&
    StartsWith(cond, NullCheckHead) && EndsWith(cond, NullCheckTail) &&
    NoLineTerminator(cond[|NullCheckHead|..|cond| - |NullCheckTail|])
  }

  /** The test accepts exactly the strings the pattern fully matches. */
  lemma NullCheckIsPattern(cond: string)
    ensures IsNullCheck(cond) <==>
      exists m :: cond == NullCheckFor(m) && |m| > 0 && NoLineTerminator(m)
  {
    if IsNullCheck(cond) {
      var m := cond[|NullCheckHead|..|cond| - |NullCheckTail|];
      assert cond == cond[..|NullCheckHead|] + m + cond[|cond| - |NullCheckTail|..];
      assert cond == NullCheckFor(m);
    }
    if m :| cond == NullCheckFor(m) && |m| > 0 && NoLineTerminator(m) {
      assert cond[..|NullCheckHead|] == NullCheckHead;
      assert cond[|cond| - |NullCheckTail|..] == NullCheckTail;
      assert cond[|NullCheckHead|..|cond| - |NullCheckTail|] == m;
    }
  }
}
