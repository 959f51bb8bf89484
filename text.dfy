/** String operations shared by the client and the server models.
    Strings are sequences of characters; whitespace is the six ASCII characters below,
    used for Python's str.strip/str.split and JavaScript's String.prototype.trim alike
    (Python's U+001C..U+001F and both languages' Unicode spaces are not modelled). */
module Text {

  datatype Option<+T> = None | Some(value: T)

  /** ASCII whitespace: space, tab, line feed, carriage return, vertical tab, form feed. */
  predicate IsSpace(c: char) {
    c == ' ' || c == '\t' || c == '\n' || c == '\r' || c == '\U{000B}' || c == '\U{000C}'
  }

  predicate AllSpace(s: string) {
    forall i :: 0 <= i < |s| ==> IsSpace(s[i])
  }

  predicate NoSpace(s: string) {
    forall i :: 0 <= i < |s| ==> !IsSpace(s[i])
  }

  predicate StartsWith(s: string, prefix: string) {
    |prefix| <= |s| && s[..|prefix|] == prefix
  }

  /** `sep` occurs in `s` starting at index `i`. */
  predicate OccursAt(s: string, sep: string, i: int) {
    0 <= i && i + |sep| <= |s| && s[i..i + |sep|] == sep
  }

  predicate Free(s: string, sep: string) {
    forall j | 0 <= j <= |s| :: !OccursAt(s, sep, j)
  }

  /** Python and JavaScript truthiness of an optional string: present and non-empty. */
  predicate Truthy(s: Option<string>) {
    s.Some? && s.value != ""
  }

  // ---------------------------------------------------------------------
  // Stripping (Python str.strip(), JavaScript trim())
  // ---------------------------------------------------------------------

  /** Drops leading whitespace. */
  function StripLeft(s: string): string {
    if s == [] || !IsSpace(s[0]) then s else StripLeft(s[1..])
  }

  /** Drops trailing whitespace. */
  function StripRight(s: string): string {
    if s == [] || !IsSpace(s[|s| - 1]) then s else StripRight(s[..|s| - 1])
  }

  /** StripLeft keeps a suffix that starts with a non-space, and all it drops is whitespace. */
  lemma {:induction false} StripLeftSpec(s: string)
    ensures var r := StripLeft(s);
      |r| <= |s| && r == s[|s| - |r|..] && (r == [] || !IsSpace(r[0])) && AllSpace(s[..|s| - |r|])
  {
    if s != [] && IsSpace(s[0]) {
      StripLeftSpec(s[1..]);
      var r := StripLeft(s[1..]);
      assert s[..|s| - |r|] == [s[0]] + s[1..][..|s[1..]| - |r|];
    }
  }

  /** StripRight keeps a prefix that ends with a non-space, and all it drops is whitespace. */
  lemma {:induction false} StripRightSpec(s: string)
    ensures var r := StripRight(s);
      |r| <= |s| && r == s[..|r|] && (r == [] || !IsSpace(r[|r| - 1])) && AllSpace(s[|r|..])
  {
    if s != [] && IsSpace(s[|s| - 1]) {
      StripRightSpec(s[..|s| - 1]);
      var r := StripRight(s[..|s| - 1]);
      assert s[|r|..] == s[..|s| - 1][|r|..] + [s[|s| - 1]];
    }
  }

  /** Removes leading and trailing whitespace. */
  function Strip(s: string): string {
    StripRight(StripLeft(s))
  }

  /** The strip is the slice of the text between a whitespace prefix and a whitespace suffix. */
  lemma StripSlice(s: string)
    ensures exists i, j :: 0 <= i <= j <= |s| && Strip(s) == s[i..j] && AllSpace(s[..i]) && AllSpace(s[j..])
  {
    var l := StripLeft(s);
    var r := StripRight(l);
    StripLeftSpec(s);
    StripRightSpec(l);
    var i := |s| - |l|;
    assert s[i + |r|..] == l[|r|..];
    assert r == s[i..i + |r|] && AllSpace(s[..i]) && AllSpace(s[i + |r|..]);
  }

  /** The strip of `s` is a slice of it; it is empty exactly when `s` is all whitespace,
      and otherwise starts and ends with a non-space. */
  lemma StripSpec(s: string)
    ensures var r := Strip(s);
      && |r| <= |s|
      && (r == [] <==> AllSpace(s))
      && (r != [] ==> !IsSpace(r[0]) && !IsSpace(r[|r| - 1]))
      && (forall c :: c in r ==> c in s)
      && exists i, j :: 0 <= i <= j <= |s| && r == s[i..j] && AllSpace(s[..i]) && AllSpace(s[j..])
  {
    var l := StripLeft(s);
    var r := StripRight(l);
    StripLeftSpec(s);
    StripRightSpec(l);
    StripSlice(s);
    assert r == [] ==> AllSpace(s) by {
      if r == [] {
        assert s == s[..|s| - |l|] + l;
        assert l == l[|r|..];
      }
    }
    assert r != [] ==> !IsSpace(r[0]) by {
      if r != [] { assert r[0] == l[0]; }
    }
    assert AllSpace(s) ==> l == [] by {
      if l != [] {
        assert l[0] == s[|s| - |l|];
        assert !IsSpace(s[|s| - |l|]);
      }
    }
    assert forall c :: c in l ==> c in s;
    assert forall c :: c in r ==> c in l;
  }

  /** A prefix one element longer is the shorter prefix and that element. */
  lemma TakeOneMore<T>(xs: seq<T>, i: nat)
    requires i < |xs|
    ensures xs[..i + 1] == xs[..i] + [xs[i]]
  {
  }

  lemma AppendAssoc(a: string, b: string, c: string)
    ensures (a + b) + c == a + (b + c)
  {
  }

  lemma StripIdempotent(s: string)
    ensures Strip(Strip(s)) == Strip(s)
  {
    StripSpec(s);
    var r := Strip(s);
    if r != [] {
      assert StripLeft(r) == r;
      assert StripRight(r) == r;
    }
  }

  // ---------------------------------------------------------------------
  // Searching and splitting on a separator (str.split(sep) / String.split(sep))
  // ---------------------------------------------------------------------

  /** The first index at which `sep` occurs in `s`, if any (str.find, indexOf). */
  function Find(s: string, sep: string): (r: Option<nat>)
    requires |sep| > 0
    ensures r.Some? ==> r.value + |sep| <= |s|
    decreases |s|
  {
    if |s| < |sep| then None
    else if s[..|sep|] == sep then Some(0)
    else
      var rest := Find(s[1..], sep);
      if rest.None? then None else Some(rest.value + 1)
  }

  lemma OccursShift(s: string, sep: string, j: int)
    requires |s| > 0 && 1 <= j
    ensures OccursAt(s, sep, j) <==> OccursAt(s[1..], sep, j - 1)
  {
    if j + |sep| <= |s| { assert s[j..j + |sep|] == s[1..][j - 1..j - 1 + |sep|]; }
  }

  /** Find reports an occurrence, and no occurrence starts before it; it reports
      none exactly when `sep` does not occur at all. */
  lemma {:induction false} FindFirst(s: string, sep: string)
    requires |sep| > 0
    ensures Find(s, sep).Some? ==> OccursAt(s, sep, Find(s, sep).value)
    ensures Find(s, sep).Some? ==> forall j :: 0 <= j < Find(s, sep).value ==> !OccursAt(s, sep, j)
    ensures Find(s, sep).None? ==> Free(s, sep)
    decreases |s|
  {
    if |s| < |sep| {
      assert Free(s, sep);
    } else if s[..|sep|] == sep {
      assert OccursAt(s, sep, 0);
    } else {
      assert !OccursAt(s, sep, 0);
      FindFirst(s[1..], sep);
      var r := Find(s[1..], sep);
      var bound := if r.Some? then r.value + 1 else |s| + 1;
      forall j | 0 < j < bound ensures !OccursAt(s, sep, j) {
        OccursShift(s, sep, j);
      }
      if r.Some? {
        OccursShift(s, sep, r.value + 1);
      }
    }
  }

  /** Python's `s.split(sep)` and JavaScript's `s.split(sep)` for a non-empty separator:
      the pieces between successive leftmost occurrences of `sep`. */
  function Split(s: string, sep: string): (parts: seq<string>)
    requires |sep| > 0
    ensures |parts| >= 1
    decreases |s|
  {
    var f := Find(s, sep);
    if f.None? then [s] else [s[..f.value]] + Split(s[f.value + |sep|..], sep)
  }

  /** `sep.join(parts)`. */
  function Join(parts: seq<string>, sep: string): string
    decreases |parts|
  {
    if |parts| == 0 then ""
    else if |parts| == 1 then parts[0]
    else parts[0] + sep + Join(parts[1..], sep)
  }

  /** `"".join(parts)`, written from the right so that appending one part is one unfolding. */
  function Concat(parts: seq<string>): string
    decreases |parts|
  {
    if |parts| == 0 then "" else Concat(parts[..|parts| - 1]) + parts[|parts| - 1]
  }

  lemma {:induction false} ConcatAppend(a: seq<string>, b: seq<string>)
    ensures Concat(a + b) == Concat(a) + Concat(b)
    decreases |b|
  {
    if |b| == 0 {
      assert a + b == a;
    } else {
      var n := |b| - 1;
      assert (a + b)[..|a + b| - 1] == a + b[..n];
      ConcatAppend(a, b[..n]);
    }
  }

  lemma {:induction false} ConcatCons(x: string, b: seq<string>)
    ensures Concat([x] + b) == x + Concat(b)
  {
    ConcatAppend([x], b);
    assert [x][..0] == [];
  }

  lemma JoinCons(a: string, xs: seq<string>, sep: string)
    requires |xs| >= 1
    ensures Join([a] + xs, sep) == a + sep + Join(xs, sep)
  {
    assert ([a] + xs)[1..] == xs;
  }

  /** Splitting and joining again gives back the input. */
  lemma {:induction false} JoinSplit(s: string, sep: string)
    requires |sep| > 0
    ensures Join(Split(s, sep), sep) == s
    decreases |s|
  {
    var f := Find(s, sep);
    if f.Some? {
      var i := f.value;
      var rest := s[i + |sep|..];
      SplitStep(s, sep);
      JoinSplit(rest, sep);
      JoinCons(s[..i], Split(rest, sep), sep);
    }
  }

  /** One step of Split: the piece before the first occurrence, then the split of what
      follows it; the text is that piece, the separator and the rest. */
  lemma SplitStep(s: string, sep: string)
    requires |sep| > 0 && Find(s, sep).Some?
    ensures var i := Find(s, sep).value;
      && Split(s, sep) == [s[..i]] + Split(s[i + |sep|..], sep)
      && s == s[..i] + sep + s[i + |sep|..]
  {
    FindCuts(s, sep);
  }

  lemma FindCuts(s: string, sep: string)
    requires |sep| > 0 && Find(s, sep).Some?
    ensures var i := Find(s, sep).value; s == s[..i] + sep + s[i + |sep|..]
  {
    var i := Find(s, sep).value;
    var rest := s[i + |sep|..];
    assert s[i..i + |sep|] == sep by { FindFirst(s, sep); }
    assert s[i..] == sep + rest;
    assert s == s[..i] + s[i..];
    assert s[..i] + (sep + rest) == s[..i] + sep + rest;
  }

  /** No piece produced by Split contains the separator. */
  lemma {:induction false} SplitPiecesFree(s: string, sep: string)
    requires |sep| > 0
    ensures forall k :: 0 <= k < |Split(s, sep)| ==> Free(Split(s, sep)[k], sep)
    decreases |s|
  {
    var f := Find(s, sep);
    FindFirst(s, sep);
    if f.Some? {
      var i := f.value;
      var rest := s[i + |sep|..];
      SplitPiecesFree(rest, sep);
      var head := s[..i];
      forall j ensures !OccursAt(head, sep, j) {
        if OccursAt(head, sep, j) {
          assert head[j..j + |sep|] == s[j..j + |sep|];
          assert OccursAt(s, sep, j);
          assert false;
        }
      }
      var parts := Split(s, sep);
      assert parts == [head] + Split(rest, sep);
      forall k | 0 <= k < |parts| ensures Free(parts[k], sep) {
        if k == 0 { assert parts[0] == head; } else { assert parts[k] == Split(rest, sep)[k - 1]; }
      }
    }
  }

  /** An occurrence found in `s` stays the first one when more text is appended. */
  lemma {:induction false} FindExtend(s: string, t: string, sep: string)
    requires |sep| > 0 && Find(s, sep).Some?
    ensures Find(s + t, sep) == Find(s, sep)
    decreases |s|
  {
    assert (s + t)[..|sep|] == s[..|sep|];
    if s[..|sep|] != sep {
      assert (s + t)[1..] == s[1..] + t;
      FindExtend(s[1..], t, sep);
    }
  }

  /** Splitting is insensitive to where the text was cut: if `s` splits into
      complete pieces `done` and a tail `tail`, then `s + t` splits into the same
      complete pieces followed by the split of `tail + t`. */
  lemma {:induction false} SplitAppend(s: string, t: string, sep: string, done: seq<string>, tail: string)
    requires |sep| > 0
    requires Split(s, sep) == done + [tail]
    ensures Split(s + t, sep) == done + Split(tail + t, sep)
    decreases |s|
  {
    var f := Find(s, sep);
    if f.None? {
      assert done + [tail] == [s];
      assert |done| == 0;
      assert tail == (done + [tail])[0];
    } else {
      var i := f.value;
      var head := s[..i];
      var rest := s[i + |sep|..];
      SplitStep(s, sep);
      SplitStepAppend(s, t, sep);
      PeelFirst(head, Split(rest, sep), done, tail);
      SplitAppend(rest, t, sep, done[1..], tail);
      assert [head] + (done[1..] + Split(tail + t, sep)) == ([head] + done[1..]) + Split(tail + t, sep);
    }
  }

  /** Appending text after a found separator only extends what follows it. */
  lemma SplitStepAppend(s: string, t: string, sep: string)
    requires |sep| > 0 && Find(s, sep).Some?
    ensures var i := Find(s, sep).value;
      Split(s + t, sep) == [s[..i]] + Split(s[i + |sep|..] + t, sep)
  {
    var i := Find(s, sep).value;
    FindExtend(s, t, sep);
    SplitAt(s + t, sep, i);
    AppendSlices(s, t, i, i + |sep|);
  }

  /** Split unfolded once at a known first occurrence. */
  lemma SplitAt(u: string, sep: string, i: nat)
    requires |sep| > 0 && Find(u, sep) == Some(i)
    ensures Split(u, sep) == [u[..i]] + Split(u[i + |sep|..], sep)
  {
  }

  /** Slices of `s + t` that start or end inside `s`. */
  lemma AppendSlices<T>(s: seq<T>, t: seq<T>, i: nat, j: nat)
    requires i <= j <= |s|
    ensures (s + t)[..i] == s[..i] && (s + t)[j..] == s[j..] + t
  {
  }

  /** Two ways of writing one non-empty list agree on its first and last element. */
  lemma PeelFirst(head: string, xs: seq<string>, done: seq<string>, tail: string)
    requires |xs| >= 1 && [head] + xs == done + [tail]
    ensures done == [head] + done[1..] && xs == done[1..] + [tail]
  {
    assert |done| >= 1;
    assert done[0] == (done + [tail])[0];
    assert xs == (done + [tail])[1..];
  }

  /** A separator whose first character does not occur in `a` is first found right after `a`. */
  lemma {:induction false} FindLead(a: string, sep: string, rest: string)
    requires |sep| > 0 && sep[0] !in a
    ensures Find(a + sep + rest, sep) == Some(|a|)
    decreases |a|
  {
    var s := a + sep + rest;
    if a != [] {
      assert a[0] in a;
      assert s[..|sep|][0] == a[0];
      assert s[1..] == a[1..] + sep + rest;
      assert forall x :: x in a[1..] ==> x in a;
      FindLead(a[1..], sep, rest);
    } else {
      assert s[..|sep|] == sep;
    }
  }

  lemma {:induction false} FindLeadNone(s: string, sep: string)
    requires |sep| > 0 && sep[0] !in s
    ensures Find(s, sep) == None
    decreases |s|
  {
    if |s| >= |sep| {
      assert s[0] in s;
      assert s[..|sep|][0] == s[0];
      assert forall x :: x in s[1..] ==> x in s;
      FindLeadNone(s[1..], sep);
    }
  }

  /** When no part contains the first character of the separator, splitting the joined
      parts gives the parts back. */
  lemma {:induction false} SplitJoin(parts: seq<string>, sep: string)
    requires |parts| >= 1 && |sep| > 0
    requires forall i :: 0 <= i < |parts| ==> sep[0] !in parts[i]
    ensures Split(Join(parts, sep), sep) == parts
    decreases |parts|
  {
    if |parts| == 1 {
      FindLeadNone(parts[0], sep);
    } else {
      var rest := Join(parts[1..], sep);
      var s := parts[0] + sep + rest;
      assert Join(parts, sep) == s;
      FindLead(parts[0], sep, rest);
      SplitStep(s, sep);
      assert s[..|parts[0]|] == parts[0];
      assert s[|parts[0]| + |sep|..] == rest;
      SplitJoin(parts[1..], sep);
      assert parts == [parts[0]] + parts[1..];
    }
  }

  /** Text that starts and ends with a non-space is its own strip. */
  lemma StripNoop(s: string)
    requires s != [] ==> !IsSpace(s[0]) && !IsSpace(s[|s| - 1])
    ensures Strip(s) == s
  {
  }

  /** Joining non-empty parts starts with the first part's first character and ends with
      the last part's last character. */
  lemma {:induction false} JoinEnds(parts: seq<string>, sep: string)
    requires |parts| >= 1
    requires forall i :: 0 <= i < |parts| ==> parts[i] != []
    ensures var j := Join(parts, sep);
      |j| > 0 && j[0] == parts[0][0] && j[|j| - 1] == parts[|parts| - 1][|parts[|parts| - 1]| - 1]
    decreases |parts|
  {
    if |parts| > 1 {
      JoinEnds(parts[1..], sep);
    }
  }

  /** A slice of a text free of a separator is free of it too. */
  lemma FreeSlice(s: string, sep: string, i: nat, j: nat)
    requires i <= j <= |s| && Free(s, sep)
    ensures Free(s[i..j], sep)
  {
    forall k | 0 <= k <= j - i ensures !OccursAt(s[i..j], sep, k) {
      assert !OccursAt(s, sep, i + k);
      if k + |sep| <= j - i {
        SliceOfSlice(s, i, j, k, k + |sep|);
      }
    }
  }

  lemma SliceOfSlice(s: string, i: nat, j: nat, a: nat, b: nat)
    requires i <= j <= |s| && a <= b <= j - i
    ensures s[i..j][a..b] == s[i + a..i + b]
  {
    assert |s[i..j][a..b]| == |s[i + a..i + b]|;
    forall t | 0 <= t < b - a ensures s[i..j][a..b][t] == s[i + a..i + b][t] {
      assert s[i..j][a..b][t] == s[i..j][a + t];
    }
  }

  /** Stripping keeps a text free of a separator. */
  lemma StripFree(s: string, sep: string)
    requires Free(s, sep)
    ensures Free(Strip(s), sep)
  {
    StripLeftSpec(s);
    var l := StripLeft(s);
    FreeSlice(s, sep, |s| - |l|, |s|);
    assert l == s[|s| - |l|..|s|];
    StripRightSpec(l);
    FreeSlice(l, sep, 0, |StripRight(l)|);
  }

  /** A separator with one of its characters missing from the text is not found. */
  lemma FindMissingChar(s: string, sep: string, k: nat)
    requires k < |sep| && sep[k] !in s
    ensures Find(s, sep) == None
  {
    FindFirst(s, sep);
    if Find(s, sep).Some? {
      assert false;
    }
  }

  /** A text free of the separator is one piece. */
  lemma SplitFreeSingle(s: string, sep: string)
    requires |sep| > 0 && Free(s, sep)
    ensures Split(s, sep) == [s]
  {
    FindFirst(s, sep);
    if Find(s, sep).Some? {
      assert false;
    }
  }

  /** The first character of `sep` occurs nowhere else in it, so two occurrences of `sep`
      cannot overlap. */
  predicate HeadUnique(sep: string) {
    forall d :: 0 < d < |sep| ==> sep[d] != sep[0]
  }

  lemma OverlapSameHead(s: string, sep: string, k: nat, i: nat)
    requires k < i < k + |sep| && OccursAt(s, sep, k) && OccursAt(s, sep, i)
    ensures sep[i - k] == sep[0]
  {
    assert s[k..k + |sep|][i - k] == s[i];
    assert s[i..i + |sep|][0] == s[i];
  }

  lemma NoOverlap(s: string, sep: string, k: nat, i: nat)
    requires |sep| > 0 && HeadUnique(sep) && k < i
    requires OccursAt(s, sep, k) && OccursAt(s, sep, i)
    ensures k + |sep| <= i
  {
    if i < k + |sep| {
      OverlapSameHead(s, sep, k, i);
      assert false;
    }
  }

  lemma ShiftOccurrence(s: string, sep: string, off: nat, i: nat)
    requires off <= i && OccursAt(s, sep, i)
    ensures OccursAt(s[off..], sep, i - off) && s[off..][i - off + |sep|..] == s[i + |sep|..]
  {
    assert s[off..] == s[off..|s|];
    SliceOfSlice(s, off, |s|, i - off, i - off + |sep|);
  }

  /** A text with an occurrence of a separator has a last one: beyond it the text is free. */
  lemma {:induction false} LastOccurrence(s: string, sep: string, i: nat)
    requires |sep| > 0 && OccursAt(s, sep, i)
    ensures exists k :: i <= k && OccursAt(s, sep, k) && Free(s[k + |sep|..], sep)
    decreases |s| - i
  {
    var rest := s[i + |sep|..];
    if !Free(rest, sep) {
      var j :| 0 <= j <= |rest| && OccursAt(rest, sep, j);
      assert rest == s[i + |sep|..|s|];
      SliceOfSlice(s, i + |sep|, |s|, j, j + |sep|);
      LastOccurrence(s, sep, i + |sep| + j);
    }
  }

  /** An occurrence at `i` means the first one is found at or before `i`. */
  lemma FindAtOrBefore(s: string, sep: string, i: nat)
    requires |sep| > 0 && OccursAt(s, sep, i)
    ensures Find(s, sep).Some? && Find(s, sep).value <= i && OccursAt(s, sep, Find(s, sep).value)
  {
    FindFirst(s, sep);
    if Find(s, sep).None? {
      assert false;
    }
  }

  /** The last piece of a split is the last piece of the split after its first cut. */
  lemma SplitLastAfterCut(s: string, sep: string, k: nat)
    requires |sep| > 0 && Find(s, sep) == Some(k)
    ensures k + |sep| <= |s|
    ensures var parts := Split(s, sep);
      var later := Split(s[k + |sep|..], sep);
      parts[|parts| - 1] == later[|later| - 1]
  {
    FindCuts(s, sep);
    var later := Split(s[k + |sep|..], sep);
    SplitAt(s, sep, k);
    LastOfCons(s[..k], later);
  }

  lemma LastOfCons(x: string, xs: seq<string>)
    requires |xs| >= 1
    ensures ([x] + xs)[|xs|] == xs[|xs| - 1]
  {
  }

  /** After a first cut before a later occurrence, that occurrence is found again in the
      rest of the text, with the same text after it. */
  lemma CutBeforeOccurrence(s: string, sep: string, k: nat, i: nat) returns (i': nat)
    requires |sep| > 0 && HeadUnique(sep) && k < i
    requires OccursAt(s, sep, k) && OccursAt(s, sep, i) && Free(s[i + |sep|..], sep)
    ensures k + |sep| + i' == i
    ensures OccursAt(s[k + |sep|..], sep, i')
    ensures s[k + |sep|..][i' + |sep|..] == s[i + |sep|..]
    ensures Free(s[k + |sep|..][i' + |sep|..], sep)
  {
    NoOverlap(s, sep, k, i);
    i' := i - k - |sep|;
    ShiftOccurrence(s, sep, k + |sep|, i);
  }

  /** At the first occurrence, with nothing of the separator after it. */
  lemma SplitLastHere(s: string, sep: string, k: nat)
    requires |sep| > 0 && Find(s, sep) == Some(k) && Free(s[k + |sep|..], sep)
    ensures var parts := Split(s, sep); parts[|parts| - 1] == s[k + |sep|..]
  {
    SplitLastAfterCut(s, sep, k);
    SplitFreeSingle(s[k + |sep|..], sep);
  }

  /** Past the last occurrence of a non-overlapping separator, the rest of the text is the
      last piece of the split. */
  lemma {:induction false} SplitLastPiece(s: string, sep: string, i: nat)
    requires |sep| > 0 && HeadUnique(sep)
    requires OccursAt(s, sep, i) && Free(s[i + |sep|..], sep)
    ensures var parts := Split(s, sep); parts[|parts| - 1] == s[i + |sep|..]
    decreases |s|, 1
  {
    FindAtOrBefore(s, sep, i);
    var k := Find(s, sep).value;
    if k == i {
      SplitLastHere(s, sep, k);
    } else {
      SplitLastLater(s, sep, k, i);
    }
  }

  /** The case of an earlier first cut: the last piece is the last piece after the cut. */
  lemma {:induction false} SplitLastLater(s: string, sep: string, k: nat, i: nat)
    requires |sep| > 0 && HeadUnique(sep) && Find(s, sep) == Some(k) && k < i
    requires OccursAt(s, sep, k) && OccursAt(s, sep, i) && Free(s[i + |sep|..], sep)
    ensures var parts := Split(s, sep); parts[|parts| - 1] == s[i + |sep|..]
    decreases |s|, 0
  {
    var rest := s[k + |sep|..];
    var parts, later := Split(s, sep), Split(rest, sep);
    assert parts[|parts| - 1] == later[|later| - 1] by {
      SplitLastAfterCut(s, sep, k);
    }
    var i' := CutBeforeOccurrence(s, sep, k, i);
    assert later[|later| - 1] == rest[i' + |sep|..] by {
      SplitLastPiece(rest, sep, i');
    }
  }

  /** The first piece of a split is a prefix of the text. */
  lemma SplitHead(s: string, sep: string)
    requires |sep| > 0
    ensures |Split(s, sep)[0]| <= |s| && Split(s, sep)[0] == s[..|Split(s, sep)[0]|]
  {
  }

  // ---------------------------------------------------------------------
  // Whitespace-separated words (Python str.split() with no argument)
  // ---------------------------------------------------------------------

  function TakeWord(s: string): (w: string)
    ensures |w| <= |s| && w == s[..|w|]
    ensures NoSpace(w)
    ensures |w| < |s| ==> IsSpace(s[|w|])
    ensures s != [] && !IsSpace(s[0]) ==> |w| > 0
  {
    if s == [] || IsSpace(s[0]) then [] else [s[0]] + TakeWord(s[1..])
  }

  /** The maximal runs of non-whitespace characters of `s`, in order. */
  function Words(s: string): (ws: seq<string>)
    ensures forall i :: 0 <= i < |ws| ==> ws[i] != [] && NoSpace(ws[i])
    decreases |s|
  {
    if s == [] then []
    else if IsSpace(s[0]) then Words(s[1..])
    else
      var w := TakeWord(s);
      [w] + Words(s[|w|..])
  }

  /** A text has no words exactly when it is all whitespace. */
  lemma {:induction false} WordsEmptyIffAllSpace(s: string)
    ensures Words(s) == [] <==> AllSpace(s)
    decreases |s|
  {
    if s != [] {
      if IsSpace(s[0]) {
        WordsEmptyIffAllSpace(s[1..]);
        assert AllSpace(s) <==> AllSpace(s[1..]) by {
          if AllSpace(s[1..]) {
            forall i | 0 <= i < |s| ensures IsSpace(s[i]) { if i > 0 { assert s[i] == s[1..][i - 1]; } }
          }
        }
      }
    }
  }

  /** A word of its own is its only word. */
  lemma {:induction false} TakeWordAll(w: string)
    requires NoSpace(w)
    ensures TakeWord(w) == w
    decreases |w|
  {
    if w != [] {
      TakeWordAll(w[1..]);
    }
  }

  /** The first word of a text does not reach past a whitespace character after it. */
  lemma {:induction false} TakeWordExtend(a: string, t: string)
    requires t == [] || IsSpace(t[0])
    ensures TakeWord(a + t) == TakeWord(a)
    decreases |a|
  {
    if a == [] {
      assert a + t == t;
    } else {
      assert (a + t)[1..] == a[1..] + t;
      TakeWordExtend(a[1..], t);
    }
  }

  lemma WordsSingle(w: string)
    requires w != [] && NoSpace(w)
    ensures Words(w) == [w]
  {
    TakeWordAll(w);
    assert w[|w|..] == [];
  }

  /** Words around one whitespace character are the words of either side, in order; with
      WordsSingle and Words("") == [] this pins down Words on every text. */
  lemma {:induction false} WordsSpaceJoin(a: string, c: char, b: string)
    requires IsSpace(c)
    ensures Words(a + [c] + b) == Words(a) + Words(b)
    decreases |a|
  {
    var s := a + [c] + b;
    if a == [] {
      assert s[1..] == b;
    } else if IsSpace(a[0]) {
      assert s[1..] == a[1..] + [c] + b;
      WordsSpaceJoin(a[1..], c, b);
    } else {
      var w := TakeWord(a);
      assert s == a + ([c] + b);
      TakeWordExtend(a, [c] + b);
      assert s[|w|..] == a[|w|..] + [c] + b;
      WordsSpaceJoin(a[|w|..], c, b);
    }
  }

  // ---------------------------------------------------------------------
  // Word tokens: split on single spaces, re-attach the space to each later word
  // ---------------------------------------------------------------------

  function SpacePrefixed(words: seq<string>): (r: seq<string>)
    ensures |r| == |words|
    ensures forall i :: 0 <= i < |r| ==> r[i] == " " + words[i]
  {
    if words == [] then [] else [" " + words[0]] + SpacePrefixed(words[1..])
  }

  /** The pieces `w0, " " + w1, " " + w2, ...` for the words `s.split(' ')`. */
  function WordTokens(s: string): (tokens: seq<string>)
    ensures |tokens| == |Split(s, " ")|
  {
    var words := Split(s, " ");
    [words[0]] + SpacePrefixed(words[1..])
  }

  lemma {:induction false} JoinSpaceIsConcat(words: seq<string>)
    requires |words| >= 1
    ensures Join(words, " ") == words[0] + Concat(SpacePrefixed(words[1..]))
    decreases |words|
  {
    if |words| == 1 {
      assert SpacePrefixed(words[1..]) == [];
    } else {
      JoinSpaceIsConcat(words[1..]);
      assert words[1..][1..] == words[2..];
      ConcatCons(" " + words[1], SpacePrefixed(words[2..]));
      assert SpacePrefixed(words[1..]) == [" " + words[1]] + SpacePrefixed(words[2..]);
    }
  }

  /** Emitting the word tokens of `s` one after another reproduces `s` exactly. */
  lemma WordTokensRoundTrip(s: string)
    ensures Concat(WordTokens(s)) == s
  {
    var words := Split(s, " ");
    JoinSplit(s, " ");
    JoinSpaceIsConcat(words);
    ConcatCons(words[0], SpacePrefixed(words[1..]));
  }

  // ---------------------------------------------------------------------
  // Case, slicing, inclusion, decimal rendering
  // ---------------------------------------------------------------------

  function LowerChar(c: char): char {
    if 'A' <= c <= 'Z' then (c as int + 32) as char else c
  }

  /** ASCII lower-casing (toLowerCase / str.lower() restricted to A-Z). */
  function Lower(s: string): (r: string)
    ensures |r| == |s|
    ensures forall i :: 0 <= i < |s| ==> r[i] == LowerChar(s[i])
  {
    seq(|s|, i requires 0 <= i < |s| => LowerChar(s[i]))
  }

  /** `s.slice(0, n)` / `s[:n]` for n >= 0. */
  function Take(s: string, n: nat): (r: string)
    ensures |r| == if n <= |s| then n else |s|
    ensures r == s[..|r|]
  {
    if n <= |s| then s[..n] else s
  }

  /** JavaScript's `s.includes(t)`: `t` occurs somewhere in `s`. */
  function Contains(s: string, t: string): bool
    decreases |s|
  {
    StartsWith(s, t) || (|s| > 0 && Contains(s[1..], t))
  }

  lemma {:induction false} ContainsMeansOccurs(s: string, t: string)
    requires |t| > 0
    ensures Contains(s, t) <==> exists i :: OccursAt(s, t, i)
    decreases |s|
  {
    if |s| > 0 {
      ContainsMeansOccurs(s[1..], t);
      forall i | 1 <= i ensures OccursAt(s, t, i) <==> OccursAt(s[1..], t, i - 1) {
        OccursShift(s, t, i);
      }
      if OccursAt(s, t, 0) { assert StartsWith(s, t); }
      if Contains(s[1..], t) {
        var i :| OccursAt(s[1..], t, i);
        assert OccursAt(s, t, i + 1);
      }
      if exists i :: OccursAt(s, t, i) {
        var i :| OccursAt(s, t, i);
        if i > 0 { assert OccursAt(s[1..], t, i - 1); }
      }
    }
  }

  function DigitChar(d: nat): char
    requires d < 10
  {
    ('0' as int + d) as char
  }

  function DigitValue(c: char): nat {
    if '0' <= c <= '9' then c as nat - '0' as nat else 0
  }

  /** Number.prototype.toString / str(n) for a natural number. */
  function NatToString(n: nat): (r: string)
    ensures |r| >= 1
    ensures forall i :: 0 <= i < |r| ==> '0' <= r[i] <= '9'
  {
    if n < 10 then [DigitChar(n)] else NatToString(n / 10) + [DigitChar(n % 10)]
  }

  function DecimalValue(s: string): nat
    decreases |s|
  {
    if s == [] then 0 else DecimalValue(s[..|s| - 1]) * 10 + DigitValue(s[|s| - 1])
  }

  lemma {:induction false} DecimalRoundTrip(n: nat)
    ensures DecimalValue(NatToString(n)) == n
  {
    var s := NatToString(n);
    if n >= 10 {
      var q, d := n / 10, n % 10;
      DecimalRoundTrip(q);
      assert s == NatToString(q) + [DigitChar(d)];
      assert s[..|s| - 1] == NatToString(q);
      assert DigitValue(s[|s| - 1]) == d;
      assert q * 10 + d == n;
    } else {
      assert DigitValue(s[0]) == n;
    }
  }

  /** Distinct numbers render as distinct strings. */
  lemma NatToStringInjective(m: nat, n: nat)
    requires NatToString(m) == NatToString(n)
    ensures m == n
  {
    DecimalRoundTrip(m);
    DecimalRoundTrip(n);
  }
}
