/**
 * The parts of JavaScript's string and object semantics that the Level 1
 * terminal relies on: `String.prototype.trim`, `split(/\s+/)`, the two
 * regular expressions that pick apart `docker run`, `Array.prototype.join`
 * and the order in which `Object.keys` lists an object's keys.
 */
module JsText {
  import opened Common

  /** ECMAScript WhiteSpace and LineTerminator: the set `\s` matches and `trim` strips. */
  predicate IsSpace(c: char)
  {
    c == '\t' || c == '\n' || c == '\U{B}' || c == '\U{C}' || c == '\r' || c == ' '
    || c == '\U{A0}' || c == '\U{1680}' || ('\U{2000}' <= c <= '\U{200A}')
    || c == '\U{2028}' || c == '\U{2029}' || c == '\U{202F}' || c == '\U{205F}'
    || c == '\U{3000}' || c == '\U{FEFF}'
  }

  predicate NotSpace(c: char) { !IsSpace(c) }

  predicate IsDigit(c: char) { '0' <= c <= '9' }

  /** The class `[a-zA-Z0-9-_]`: after the range `0-9` the `-` is literal. */
  predicate IsNameChar(c: char)
  {
    ('a' <= c <= 'z') || ('A' <= c <= 'Z') || IsDigit(c) || c == '-' || c == '_'
  }

  /** End of the longest run of characters satisfying `p` that starts at `i`. */
  function SpanEnd(s: string, i: nat, p: char -> bool): (j: nat)
    requires i <= |s|
    ensures i <= j <= |s|
    ensures forall k :: i <= k < j ==> p(s[k])
    ensures j == |s| || !p(s[j])
    decreases |s| - i
  {
    if i == |s| || !p(s[i]) then i else SpanEnd(s, i + 1, p)
  }

  /** End of the run of whitespace that ends `s`, scanning backwards from `j`. */
  function TrailingStart(s: string, j: nat): (m: nat)
    requires j <= |s|
    ensures m <= j
    ensures forall k :: m <= k < j ==> IsSpace(s[k])
    ensures m == 0 || !IsSpace(s[m - 1])
  {
    if j == 0 || !IsSpace(s[j - 1]) then j else TrailingStart(s, j - 1)
  }

  /** `s[i..j]` is `s` with only whitespace cut off before `i` and after `j`. */
  predicate Stripped(s: string, i: nat, j: nat)
  {
    && i <= j <= |s|
    && (forall k :: 0 <= k < i ==> IsSpace(s[k]))
    && (forall k :: j <= k < |s| ==> IsSpace(s[k]))
  }

  /** `s.trim()`: strips leading and trailing whitespace and nothing else. */
  function Trim(s: string): (r: string)
    ensures r == [] <==> forall k :: 0 <= k < |s| ==> IsSpace(s[k])
    ensures r != [] ==> NotSpace(r[0]) && NotSpace(r[|r| - 1])
    ensures exists i: nat, j: nat :: Stripped(s, i, j) && r == s[i..j]
  {
    var i := SpanEnd(s, 0, IsSpace);
    if i == |s| then
      assert Stripped(s, |s|, |s|);
      []
    else
      var j := TrailingStart(s, |s|);
      assert NotSpace(s[i]);
      assert i < j;
      assert Stripped(s, i, j);
      s[i..j]
  }

  predicate StartsWith(s: string, prefix: string)
  {
    |prefix| <= |s| && s[..|prefix|] == prefix
  }

  /**
   * `s.split(/\s+/)`: the pieces between maximal runs of whitespace, with an
   * empty piece before leading and after trailing whitespace.
   */
  function Split(s: string): (parts: seq<string>)
    ensures |parts| >= 1
    ensures forall n, k :: 0 <= n < |parts| && 0 <= k < |parts[n]| ==> NotSpace(parts[n][k])
    decreases |s|
  {
    var i := SpanEnd(s, 0, NotSpace);
    if i == |s| then [s]
    else
      var j := SpanEnd(s, i, IsSpace);
      [s[..i]] + Split(s[j..])
  }

  /** The whitespace runs `split(/\s+/)` cuts out of `s`, in order. */
  ghost function Gaps(s: string): seq<string>
    decreases |s|
  {
    var i := SpanEnd(s, 0, NotSpace);
    if i == |s| then []
    else
      var j := SpanEnd(s, i, IsSpace);
      [s[i..j]] + Gaps(s[j..])
  }

  /** The pieces with the gaps put back between them. */
  function Weave(parts: seq<string>, gaps: seq<string>): string
    requires |parts| == |gaps| + 1
  {
    if gaps == [] then parts[0] else parts[0] + gaps[0] + Weave(parts[1..], gaps[1..])
  }

  /** One step of `Split` and `Gaps`: a first piece, a gap, and the split of the rest. */
  lemma SplitStep(s: string) returns (i: nat, j: nat)
    requires SpanEnd(s, 0, NotSpace) != |s|
    ensures 0 < j <= |s| && i < j
    ensures Split(s) == [s[..i]] + Split(s[j..]) && Gaps(s) == [s[i..j]] + Gaps(s[j..])
    ensures s == s[..i] + s[i..j] + s[j..]
    ensures s[i..j] != [] && forall k :: 0 <= k < |s[i..j]| ==> IsSpace(s[i..j][k])
    ensures s[j..] != [] ==> NotSpace(s[j..][0])
  {
    i := SpanEnd(s, 0, NotSpace);
    j := SpanEnd(s, i, IsSpace);
    Pieces(s, i, j);
    SpaceGap(s, i);
  }

  /**
   * `split(/\s+/)` loses nothing but whitespace: putting the gaps back
   * between consecutive pieces rebuilds `s`.
   */
  lemma {:induction false} SplitRebuilds(s: string)
    ensures |Gaps(s)| + 1 == |Split(s)|
    ensures Weave(Split(s), Gaps(s)) == s
    decreases |s|
  {
    if SpanEnd(s, 0, NotSpace) != |s| {
      var i, j := SplitStep(s);
      SplitRebuilds(s[j..]);
      assert Split(s)[1..] == Split(s[j..]) && Gaps(s)[1..] == Gaps(s[j..]);
    }
  }

  /** Every gap `split(/\s+/)` cuts out is a non-empty run of whitespace. */
  lemma {:induction false} GapsAreWhitespace(s: string)
    ensures forall g :: g in Gaps(s) ==> g != [] && forall k :: 0 <= k < |g| ==> IsSpace(g[k])
    decreases |s|
  {
    if SpanEnd(s, 0, NotSpace) != |s| {
      var i, j := SplitStep(s);
      GapsAreWhitespace(s[j..]);
    }
  }

  /** Only the first and the last piece of `split(/\s+/)` can be empty. */
  lemma {:induction false} InnerPiecesNonEmpty(s: string)
    ensures forall n :: 0 < n < |Split(s)| - 1 ==> Split(s)[n] != ""
    decreases |s|
  {
    if SpanEnd(s, 0, NotSpace) != |s| {
      var i, j := SplitStep(s);
      var t := s[j..];
      InnerPiecesNonEmpty(t);
      var ps := Split(s);
      forall n | 0 < n < |ps| - 1
        ensures ps[n] != ""
      {
        assert ps[n] == Split(t)[n - 1];
        if n == 1 {
          FirstPieceNonEmpty(t);
        }
      }
    }
  }

  /** A string that starts with a non-space starts with a non-empty piece. */
  lemma FirstPieceNonEmpty(t: string)
    requires |Split(t)| >= 2 || (t != [] && NotSpace(t[0]))
    ensures t != [] && NotSpace(t[0]) ==> Split(t)[0] != ""
    ensures |Split(t)| >= 2 ==> t != []
  {
    if t != [] && NotSpace(t[0]) {
      assert SpanEnd(t, 0, NotSpace) > 0;
    }
  }

  lemma Pieces(s: string, i: nat, j: nat)
    requires i <= j <= |s|
    ensures s == s[..i] + s[i..j] + s[j..]
  {
  }

  /** The run of whitespace starting at a space is a non-empty gap of whitespace. */
  lemma SpaceGap(s: string, i: nat)
    requires i < |s| && IsSpace(s[i])
    ensures var j := SpanEnd(s, i, IsSpace);
      s[i..j] != [] && forall k :: 0 <= k < |s[i..j]| ==> IsSpace(s[i..j][k])
  {
  }

  /** `SpanEnd` is the end of a known maximal run. */
  lemma {:induction false} SpanEndAt(s: string, i: nat, p: char -> bool, e: nat)
    requires i <= e <= |s|
    requires forall k :: i <= k < e ==> p(s[k])
    requires e == |s| || !p(s[e])
    ensures SpanEnd(s, i, p) == e
    decreases e - i
  {
    if i < e {
      SpanEndAt(s, i + 1, p, e);
    }
  }

  /** A line without leading or trailing whitespace is its own trim. */
  lemma TrimKeeps(s: string)
    requires s != [] && NotSpace(s[0]) && NotSpace(s[|s| - 1])
    ensures Trim(s) == s
  {
    assert SpanEnd(s, 0, IsSpace) == 0;
    assert TrailingStart(s, |s|) == |s|;
  }

  /** A word without whitespace splits into itself. */
  lemma SplitSingle(a: string)
    requires forall k :: 0 <= k < |a| ==> NotSpace(a[k])
    ensures Split(a) == [a]
  {
    SpanEndAt(a, 0, NotSpace, |a|);
  }

  /** A word, one space and a rest that starts with a non-space split into the word and the rest's pieces. */
  lemma SplitWord(a: string, b: string)
    requires forall k :: 0 <= k < |a| ==> NotSpace(a[k])
    requires b == [] || NotSpace(b[0])
    ensures Split(a + " " + b) == [a] + Split(b)
  {
    var s := a + " " + b;
    assert forall k :: 0 <= k < |a| ==> s[k] == a[k];
    assert s[|a|] == ' ' && IsSpace(s[|a|]);
    assert s[..|a|] == a && s[|a| + 1..] == b;
    assert |a| + 1 < |s| ==> s[|a| + 1] == b[0];
    SpanEndAt(s, 0, NotSpace, |a|);
    SpanEndAt(s, |a|, IsSpace, |a| + 1);
  }

  /** `parts[n]` read where the source tests `!parts[n]`: absent or empty gives None. */
  function Arg(parts: seq<string>, n: nat): (r: Option<string>)
    ensures r.Some? <==> n < |parts| && parts[n] != ""
    ensures r.Some? ==> r.value == parts[n]
  {
    if n < |parts| && parts[n] != "" then Some(parts[n]) else None
  }

  function Last(parts: seq<string>): string
    requires parts != []
  {
    parts[|parts| - 1]
  }

  // ---- the two regular expressions of `docker run` ----

  datatype Pattern =
    | NameFlag   // /--name\s+([a-zA-Z0-9-_]+)/
    | PortFlag   // /-p\s+([0-9]+:[0-9]+)/

  function Flag(p: Pattern): string
  {
    match p
    case NameFlag => "--name"
    case PortFlag => "-p"
  }

  /** The shape of a capture group of each pattern. */
  predicate CaptureShape(p: Pattern, g: string)
  {
    match p
    case NameFlag => g != [] && forall k :: 0 <= k < |g| ==> IsNameChar(g[k])
    case PortFlag =>
      exists m :: 0 < m < |g| - 1 && g[m] == ':'
        && (forall k :: 0 <= k < m ==> IsDigit(g[k]))
        && (forall k :: m < k < |g| ==> IsDigit(g[k]))
  }

  /** The characters the group's last class matches. */
  predicate GroupChar(p: Pattern, c: char)
  {
    match p
    case NameFlag => IsNameChar(c)
    case PortFlag => IsDigit(c)
  }

  /** `g` is the text of `s` at `w`, and the run of the group's last class ends right after it. */
  predicate GroupAt(p: Pattern, s: string, w: nat, g: string)
  {
    w + |g| <= |s| && s[w..w + |g|] == g && (w + |g| == |s| || !GroupChar(p, s[w + |g|]))
  }

  /** `([a-zA-Z0-9-_]+)` at index `w`: the maximal run of name characters, if any. */
  function NameGroupAt(s: string, w: nat): (r: Option<string>)
    requires w <= |s|
    ensures r.Some? ==> CaptureShape(NameFlag, r.value) && GroupAt(NameFlag, s, w, r.value)
    ensures r.None? <==> w == |s| || !IsNameChar(s[w])
  {
    var e := SpanEnd(s, w, IsNameChar);
    if e == w then None else Some(s[w..e])
  }

  /** `([0-9]+:[0-9]+)` at index `w`: maximal digits, a colon, maximal digits. */
  function PortGroupAt(s: string, w: nat): (r: Option<string>)
    requires w <= |s|
    ensures r.Some? ==> CaptureShape(PortFlag, r.value) && GroupAt(PortFlag, s, w, r.value)
  {
    var d := SpanEnd(s, w, IsDigit);
    if d == w || d == |s| || s[d] != ':' then None
    else
      var e := SpanEnd(s, d + 1, IsDigit);
      if e == d + 1 then None
      else
        var g := s[w..e];
        assert g[d - w] == ':';
        assert forall k :: 0 <= k < d - w ==> g[k] == s[w + k];
        assert forall k :: d - w < k < |g| ==> g[k] == s[w + k];
        Some(g)
  }

  /**
   * The capture group when the pattern matches at index `i`. Greedy `\s+`
   * followed by a class that excludes whitespace, and greedy `[0-9]+`
   * followed by `:`, never gain anything by backtracking, so a match at `i`
   * is unique: maximal whitespace, then a maximal run of the class.
   */
  function MatchAt(p: Pattern, s: string, i: nat): (r: Option<string>)
    requires i <= |s|
    ensures r.Some? ==> CaptureShape(p, r.value)
  {
    var f := Flag(p);
    if !(i + |f| <= |s| && s[i..i + |f|] == f) then None
    else
      var w := SpanEnd(s, i + |f|, IsSpace);
      if w == i + |f| then None
      else
        match p
        case NameFlag => NameGroupAt(s, w)
        case PortFlag => PortGroupAt(s, w)
  }

  /**
   * A match at `i` is the flag, a non-empty run of whitespace taken whole,
   * and the group read from the text right after it.
   */
  lemma MatchAtText(p: Pattern, s: string, i: nat)
    requires i <= |s|
    ensures MatchAt(p, s, i).Some? ==> (i + |Flag(p)| <= |s| && s[i..i + |Flag(p)|] == Flag(p)
      && var w := SpanEnd(s, i + |Flag(p)|, IsSpace);
         i + |Flag(p)| < w && GroupAt(p, s, w, MatchAt(p, s, i).value))
  {
  }

  /** No match starts at `m` when a character there differs from the flag. */
  lemma MismatchNoMatch(p: Pattern, s: string, m: nat, d: nat)
    requires m <= |s| && d < |Flag(p)| && m + d < |s| && s[m + d] != Flag(p)[d]
    ensures MatchAt(p, s, m).None?
  {
    if m + |Flag(p)| <= |s| {
      assert s[m..m + |Flag(p)|][d] == s[m + d];
    }
  }

  /** No match starts at `m` when the flag there is not followed by whitespace. */
  lemma NoGapNoMatch(p: Pattern, s: string, m: nat)
    requires m + |Flag(p)| < |s| && !IsSpace(s[m + |Flag(p)|])
    ensures MatchAt(p, s, m).None?
  {
  }

  /** No `-p` match starts at `m` when the whitespace after the flag ends at a non-digit. */
  lemma PortNeedsDigit(s: string, m: nat, w: nat)
    requires m + 2 < w < |s|
    requires forall k :: m + 2 <= k < w ==> IsSpace(s[k])
    requires !IsSpace(s[w]) && !IsDigit(s[w])
    ensures MatchAt(PortFlag, s, m).None?
  {
    if s[m..m + 2] == "-p" {
      MatchAtReads(PortFlag, s, m, w);
    }
  }

  /** The name group reads a whole run of name characters that stands at `w`. */
  lemma NameGroupReads(s: string, w: nat, g: string)
    requires w + |g| <= |s| && s[w..w + |g|] == g && CaptureShape(NameFlag, g)
    requires w + |g| == |s| || !IsNameChar(s[w + |g|])
    ensures NameGroupAt(s, w) == Some(g)
  {
    forall k | w <= k < w + |g|
      ensures IsNameChar(s[k])
    {
      assert s[k] == g[k - w];
    }
    SpanEndAt(s, w, IsNameChar, w + |g|);
  }

  /** The port group reads a whole `digits:digits` that stands at `w`. */
  lemma PortGroupReads(s: string, w: nat, g: string)
    requires w + |g| <= |s| && s[w..w + |g|] == g && CaptureShape(PortFlag, g)
    requires w + |g| == |s| || !IsDigit(s[w + |g|])
    ensures PortGroupAt(s, w) == Some(g)
  {
    var c :| 0 < c < |g| - 1 && g[c] == ':'
      && (forall k :: 0 <= k < c ==> IsDigit(g[k]))
      && (forall k :: c < k < |g| ==> IsDigit(g[k]));
    var d, e := w + c, w + |g|;
    forall k | w <= k < d
      ensures IsDigit(s[k])
    {
      assert s[k] == g[k - w];
    }
    assert s[d] == g[c] == ':';
    forall k | d + 1 <= k < e
      ensures IsDigit(s[k])
    {
      assert s[k] == g[k - w];
    }
    SpanEndAt(s, w, IsDigit, d);
    SpanEndAt(s, d + 1, IsDigit, e);
    assert d != w && d != |s| && e != d + 1;
    assert s[w..e] == g;
  }

  /** A match at `i` is read from the flag, a run of whitespace ending at `w` and the group at `w`. */
  lemma MatchAtReads(p: Pattern, s: string, i: nat, w: nat)
    requires i + |Flag(p)| < w <= |s| && s[i..i + |Flag(p)|] == Flag(p)
    requires forall k :: i + |Flag(p)| <= k < w ==> IsSpace(s[k])
    requires w == |s| || !IsSpace(s[w])
    ensures p == NameFlag ==> MatchAt(p, s, i) == NameGroupAt(s, w)
    ensures p == PortFlag ==> MatchAt(p, s, i) == PortGroupAt(s, w)
  {
    SpanEndAt(s, i + |Flag(p)|, IsSpace, w);
  }

  /** Index of the leftmost match at or after `i`, as `String.prototype.match` searches. */
  function Search(p: Pattern, s: string, i: nat): (r: Option<nat>)
    requires i <= |s|
    ensures r.Some? ==> i <= r.value <= |s| && MatchAt(p, s, r.value).Some?
    ensures r.Some? ==> forall m :: i <= m < r.value ==> MatchAt(p, s, m).None?
    ensures r.None? ==> forall m :: i <= m <= |s| ==> MatchAt(p, s, m).None?
    decreases |s| - i
  {
    if MatchAt(p, s, i).Some? then Some(i)
    else if i == |s| then None
    else Search(p, s, i + 1)
  }

  /** `s.match(re)?.[1]`: the capture of the leftmost match, if any. */
  function Capture(p: Pattern, s: string): (r: Option<string>)
    ensures r.Some? ==> CaptureShape(p, r.value)
    ensures r.Some? ==> exists k :: (0 <= k <= |s| && r == MatchAt(p, s, k)
      && forall m :: 0 <= m < k ==> MatchAt(p, s, m).None?)
    ensures r.None? <==> forall m :: 0 <= m <= |s| ==> MatchAt(p, s, m).None?
  {
    match Search(p, s, 0)
    case Some(k) => MatchAt(p, s, k)
    case None => None
  }

  /** The capture is the one of a match at `k` when no match starts before `k`. */
  lemma CaptureAt(p: Pattern, s: string, k: nat)
    requires k <= |s| && MatchAt(p, s, k).Some?
    requires forall m :: 0 <= m < k ==> MatchAt(p, s, m).None?
    ensures Capture(p, s) == MatchAt(p, s, k)
  {
    var r := Search(p, s, 0);
    assert r.Some?;
    assert r.value == k;
  }

  // ---- Array.prototype.join ----

  function Join(xs: seq<string>, sep: string): string
  {
    if xs == [] then "" else if |xs| == 1 then xs[0] else xs[0] + sep + Join(xs[1..], sep)
  }

  // ---- Object.keys order ----

  /** The value of a decimal digit; other characters count as zero. */
  function DigitValue(c: char): (d: nat)
    ensures d <= 9
  {
    if IsDigit(c) then c as int - '0' as int else 0
  }

  /** The number a decimal numeral denotes. */
  function DecimalValue(s: string): nat
  {
    if s == [] then 0 else 10 * DecimalValue(s[..|s| - 1]) + DigitValue(s[|s| - 1])
  }

  /** A canonical array index: a decimal numeral without leading zeros below 2^32 - 1. */
  predicate IsArrayIndex(k: string)
  {
    && k != []
    && (forall i :: 0 <= i < |k| ==> IsDigit(k[i]))
    && (k == "0" || k[0] != '0')
    && DecimalValue(k) < 0xFFFF_FFFF
  }

  function InsertIndexKey(k: string, sorted: seq<string>): (r: seq<string>)
    requires IsArrayIndex(k) && forall x :: x in sorted ==> IsArrayIndex(x)
    ensures multiset(r) == multiset(sorted) + multiset{k}
    ensures forall x :: x in r ==> IsArrayIndex(x)
  {
    if sorted == [] then [k]
    else
      assert sorted[0] in sorted;
      assert IsArrayIndex(sorted[0]);
      if DecimalValue(k) <= DecimalValue(sorted[0]) then [k] + sorted
      else
      assert sorted == [sorted[0]] + sorted[1..];
      [sorted[0]] + InsertIndexKey(k, sorted[1..])
  }

  /**
   * `Object.keys(o)` for an object whose keys were inserted in `order`:
   * array-index keys first in ascending numeric order, then every other
   * key in insertion order.
   */
  function ObjectKeys(order: seq<string>): (r: seq<string>)
    ensures multiset(r) == multiset(order)
  {
    if order == [] then []
    else
      var rest := ObjectKeys(order[..|order| - 1]);
      var k := order[|order| - 1];
      assert order == order[..|order| - 1] + [k];
      var n := |IndexPrefix(rest)|;
      assert rest == rest[..n] + rest[n..];
      if IsArrayIndex(k) then
        InsertIndexKey(k, rest[..n]) + rest[n..]
      else rest + [k]
  }

  /** The leading array-index keys of a key list. */
  function IndexPrefix(keys: seq<string>): (r: seq<string>)
    ensures |r| <= |keys| && r == keys[..|r|]
    ensures forall x :: x in r ==> IsArrayIndex(x)
  {
    if keys == [] || !IsArrayIndex(keys[0]) then [] else [keys[0]] + IndexPrefix(keys[1..])
  }

  /** Keys in ascending numeric order. */
  predicate Ascending(keys: seq<string>)
  {
    forall i, j :: 0 <= i < j < |keys| ==> DecimalValue(keys[i]) <= DecimalValue(keys[j])
  }

  /** The keys of `order` that are no array index, in insertion order. */
  function PlainKeys(order: seq<string>): (r: seq<string>)
    ensures forall x :: x in r ==> !IsArrayIndex(x)
  {
    if order == [] then []
    else
      var k := order[|order| - 1];
      PlainKeys(order[..|order| - 1]) + (if IsArrayIndex(k) then [] else [k])
  }

  /** A key no larger than every key of an ascending list can go in front of it. */
  lemma AscendingCons(h: string, t: seq<string>)
    requires Ascending(t)
    requires forall k :: 0 <= k < |t| ==> DecimalValue(h) <= DecimalValue(t[k])
    ensures Ascending([h] + t)
  {
    var r := [h] + t;
    forall j | 0 < j < |r|
      ensures DecimalValue(r[0]) <= DecimalValue(r[j])
    {
      assert r[0] == h && r[j] == t[j - 1];
    }
    forall i, j | 0 < i < j < |r|
      ensures DecimalValue(r[i]) <= DecimalValue(r[j])
    {
      assert r[i] == t[i - 1] && r[j] == t[j - 1];
    }
  }

  /** A bound below the inserted key and every listed key stays below the result. */
  lemma BoundBelowInsert(b: string, k: string, sorted: seq<string>)
    requires IsArrayIndex(b) && IsArrayIndex(k) && DecimalValue(b) <= DecimalValue(k)
    requires forall x :: x in sorted ==> IsArrayIndex(x) && DecimalValue(b) <= DecimalValue(x)
    ensures forall x :: x in InsertIndexKey(k, sorted) ==> DecimalValue(b) <= DecimalValue(x)
  {
    var r := InsertIndexKey(k, sorted);
    forall x | x in r
      ensures DecimalValue(b) <= DecimalValue(x)
    {
      assert x in multiset(r);
      if x != k {
        assert x in multiset(sorted);
      }
    }
  }

  /** Inserting an index key into an ascending list keeps it ascending. */
  lemma {:induction false} InsertKeepsAscending(k: string, sorted: seq<string>)
    requires IsArrayIndex(k) && forall x :: x in sorted ==> IsArrayIndex(x)
    requires Ascending(sorted)
    ensures Ascending(InsertIndexKey(k, sorted))
  {
    if sorted == [] {
    } else if DecimalValue(k) <= DecimalValue(sorted[0]) {
      forall j | 0 <= j < |sorted|
        ensures DecimalValue(k) <= DecimalValue(sorted[j])
      {
        assert j == 0 || DecimalValue(sorted[0]) <= DecimalValue(sorted[j]);
      }
      AscendingCons(k, sorted);
    } else {
      var tail := sorted[1..];
      assert Ascending(tail);
      assert forall x :: x in tail ==> x in sorted;
      InsertKeepsAscending(k, tail);
      forall x | x in tail
        ensures IsArrayIndex(x) && DecimalValue(sorted[0]) <= DecimalValue(x)
      {
        var j :| 0 <= j < |tail| && tail[j] == x;
        assert x == sorted[j + 1];
      }
      BoundBelowInsert(sorted[0], k, tail);
      var r := InsertIndexKey(k, tail);
      forall j | 0 <= j < |r|
        ensures DecimalValue(sorted[0]) <= DecimalValue(r[j])
      {
        assert r[j] in r;
      }
      AscendingCons(sorted[0], r);
    }
  }

  /** The leading index keys of `a + b` are `a` when `b` does not begin with one. */
  lemma {:induction false} IndexPrefixOfAppend(a: seq<string>, b: seq<string>)
    requires forall x :: x in a ==> IsArrayIndex(x)
    requires b == [] || !IsArrayIndex(b[0])
    ensures IndexPrefix(a + b) == a
  {
    if a != [] {
      assert a[0] in a;
      assert forall x :: x in a[1..] ==> x in a;
      assert (a + b)[1..] == a[1..] + b;
      IndexPrefixOfAppend(a[1..], b);
    }
  }

  /** `ObjectKeys` after one more array-index key: it is sorted into the leading index keys. */
  lemma IndexKeyInserted(init: seq<string>, k: string)
    requires IsArrayIndex(k)
    ensures var rest := ObjectKeys(init);
      var p := IndexPrefix(rest);
      && ObjectKeys(init + [k]) == InsertIndexKey(k, p) + rest[|p|..]
      && PlainKeys(init + [k]) == PlainKeys(init)
  {
    assert (init + [k])[..|init + [k]| - 1] == init;
  }

  /** The split into index keys and other keys survives one more index key. */
  lemma SplitAfterIndexKey(init: seq<string>, k: string)
    requires IsArrayIndex(k)
    requires ObjectKeys(init) == IndexPrefix(ObjectKeys(init)) + PlainKeys(init)
    ensures ObjectKeys(init + [k]) == InsertIndexKey(k, IndexPrefix(ObjectKeys(init))) + PlainKeys(init + [k])
    ensures IndexPrefix(ObjectKeys(init + [k])) == InsertIndexKey(k, IndexPrefix(ObjectKeys(init)))
  {
    IndexKeyInserted(init, k);
    var rest := ObjectKeys(init);
    var p, q := IndexPrefix(rest), PlainKeys(init);
    assert rest[|p|..] == q;
    assert q != [] ==> q[0] in q;
    IndexPrefixOfAppend(InsertIndexKey(k, p), q);
  }

  /** The split into index keys and other keys survives one more other key. */
  lemma SplitAfterPlainKey(init: seq<string>, k: string)
    requires !IsArrayIndex(k)
    requires ObjectKeys(init) == IndexPrefix(ObjectKeys(init)) + PlainKeys(init)
    ensures ObjectKeys(init + [k]) == IndexPrefix(ObjectKeys(init)) + PlainKeys(init + [k])
    ensures IndexPrefix(ObjectKeys(init + [k])) == IndexPrefix(ObjectKeys(init))
  {
    PlainKeyAppended(init, k);
    var p, q := IndexPrefix(ObjectKeys(init)), PlainKeys(init);
    AppendAssoc(p, q, [k]);
    assert q != [] ==> q[0] in q;
    IndexPrefixOfAppend(p, q + [k]);
  }

  lemma AppendAssoc(a: seq<string>, b: seq<string>, c: seq<string>)
    ensures (a + b) + c == a + (b + c)
  {
  }

  /**
   * `Object.keys` lists the array-index keys first, in ascending numeric
   * order, and then every other key in the order it was inserted.
   */
  lemma {:induction false} ObjectKeysOrder(order: seq<string>)
    ensures Ascending(IndexPrefix(ObjectKeys(order)))
    ensures ObjectKeys(order) == IndexPrefix(ObjectKeys(order)) + PlainKeys(order)
  {
    if order != [] {
      var init, k := order[..|order| - 1], order[|order| - 1];
      assert order == init + [k];
      ObjectKeysOrder(init);
      if IsArrayIndex(k) {
        SplitAfterIndexKey(init, k);
        InsertKeepsAscending(k, IndexPrefix(ObjectKeys(init)));
      } else {
        SplitAfterPlainKey(init, k);
      }
    }
  }

  /** A key that is no array index goes to the end of the listing. */
  lemma PlainKeyAppended(init: seq<string>, k: string)
    requires !IsArrayIndex(k)
    ensures ObjectKeys(init + [k]) == ObjectKeys(init) + [k]
    ensures PlainKeys(init + [k]) == PlainKeys(init) + [k]
  {
    assert (init + [k])[..|init + [k]| - 1] == init;
  }

  /** An object without array-index keys lists its keys in insertion order. */
  lemma {:induction false} ObjectKeysPlain(order: seq<string>)
    requires forall k :: k in order ==> !IsArrayIndex(k)
    ensures ObjectKeys(order) == order
  {
    if order != [] {
      var init, k := order[..|order| - 1], order[|order| - 1];
      assert order == init + [k];
      assert forall x :: x in init ==> x in order;
      ObjectKeysPlain(init);
      PlainKeyAppended(init, k);
    }
  }
}
