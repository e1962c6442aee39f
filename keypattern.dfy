/**
 * The regular expression `key=([^&]+)` that every variant of the proxy uses
 * to find a credential in a path or URL, and the two ways it is applied:
 * JavaScript `String.prototype.replace` with a non-global pattern (only the
 * leftmost match is replaced) and Python `re.sub` (every non-overlapping
 * match, scanned left to right).
 *
 * The pattern is unanchored, so `apikey=` or `/monkey=` match too, and
 * `[^&]+` needs at least one character, so an empty `key=` is skipped.
 * Being greedy, a match runs up to the next `&` or the end of the text.
 */
module KeyPattern {
  import opened Wrappers
  import opened Text

  const KeyEq: string := "key="

  /** The pattern matches at index `i` of `s`: `key=` followed by a character other than `&`. */
  predicate MatchAt(s: string, i: int) {
    0 <= i && i + 4 < |s| && s[i..i + 4] == KeyEq && s[i + 4] != '&'
  }

  /** Where the greedy `[^&]+` starting at `j` stops: the first `&` at or after `j`, or the end. */
  function ValueEnd(s: string, j: nat): (e: nat)
    requires j <= |s|
    ensures j <= e <= |s|
    ensures forall m :: j <= m < e ==> s[m] != '&'
    ensures e < |s| ==> s[e] == '&'
    decreases |s| - j
  {
    if j == |s| || s[j] == '&' then j else ValueEnd(s, j + 1)
  }

  /** The leftmost match at or after `from`. */
  function FirstMatchFrom(s: string, from: nat): (r: Option<nat>)
    requires from <= |s|
    ensures r.Some? ==> from <= r.value && MatchAt(s, r.value)
    ensures r.Some? ==> forall j :: from <= j < r.value ==> !MatchAt(s, j)
    ensures r.None? ==> forall j :: from <= j ==> !MatchAt(s, j)
    decreases |s| - from
  {
    if from == |s| then None
    else if MatchAt(s, from) then Some(from)
    else FirstMatchFrom(s, from + 1)
  }

  /** Where a regular-expression search for the pattern finds it (`re.search`, `String.prototype.match`). */
  function FirstMatch(s: string): Option<nat> {
    FirstMatchFrom(s, 0)
  }

  /** Index just past the match at `i`. */
  function MatchEnd(s: string, i: nat): (e: nat)
    requires MatchAt(s, i)
    ensures i + 4 < e <= |s|
    ensures e < |s| ==> s[e] == '&'
  {
    ValueEnd(s, i + 4)
  }

  /** The text the group `([^&]+)` captures for the match at `i`. */
  function Capture(s: string, i: nat): (c: string)
    requires MatchAt(s, i)
    ensures |c| >= 1 && '&' !in c
    ensures s[i + 4..] == c + s[MatchEnd(s, i)..]
  {
    var e := MatchEnd(s, i);
    assert s[i + 4..] == s[i + 4..e] + s[e..];
    s[i + 4..e]
  }

  /** JavaScript `s.replace(/key=([^&]+)/, "key=" + k)`: only the leftmost match is replaced. */
  function ReplaceFirst(s: string, k: string): string {
    match FirstMatch(s)
    case None => s
    case Some(i) => s[..i] + KeyEq + k + s[MatchEnd(s, i)..]
  }

  /** Python `re.sub(r"key=[^&]+", "key=" + k, s)`: every non-overlapping match is replaced. */
  function ReplaceAll(s: string, k: string): string
    decreases |s|
  {
    match FirstMatch(s)
    case None => s
    case Some(i) => s[..i] + KeyEq + k + ReplaceAll(s[MatchEnd(s, i)..], k)
  }

  /** How many non-overlapping matches a left-to-right scan finds. */
  function MatchCount(s: string): nat
    decreases |s|
  {
    match FirstMatch(s)
    case None => 0
    case Some(i) => 1 + MatchCount(s[MatchEnd(s, i)..])
  }

  /** Every match a left-to-right scan finds already captures `k`. */
  predicate AllCapturesAre(s: string, k: string)
    decreases |s|
  {
    match FirstMatch(s)
    case None => true
    case Some(i) => Capture(s, i) == k && AllCapturesAre(s[MatchEnd(s, i)..], k)
  }

  /** A credential the pattern captures whole: non-empty and free of `&`. */
  predicate CapturableKey(k: string) {
    k != [] && '&' !in k
  }

  /** Text that can follow a complete match: nothing, or an `&`. */
  predicate AfterMatch(t: string) {
    t == [] || t[0] == '&'
  }

  // ----- Characterising the search -----

  /** The search result is the leftmost match. */
  lemma FirstMatchIs(s: string, i: nat)
    requires MatchAt(s, i)
    requires forall j :: 0 <= j < i ==> !MatchAt(s, j)
    ensures FirstMatch(s) == Some(i)
  {
  }

  /** A match at `j` reads only the five characters `s[j..j + 5]`. */
  lemma MatchDependsOnPrefix(s: string, t: string, n: nat)
    requires n + 4 <= |s| && n + 4 <= |t|
    requires s[..n + 4] == t[..n + 4]
    ensures forall j :: 0 <= j < n ==> (MatchAt(s, j) <==> MatchAt(t, j))
  {
    forall j | 0 <= j < n
      ensures MatchAt(s, j) <==> MatchAt(t, j)
    {
      assert s[j..j + 4] == s[..n + 4][j..j + 4];
      assert t[j..j + 4] == t[..n + 4][j..j + 4];
      assert s[j + 4] == s[..n + 4][j + 4];
      assert t[j + 4] == t[..n + 4][j + 4];
    }
  }

  /** `ValueEnd` is determined by its contract. */
  lemma ValueEndIs(s: string, j: nat, e: nat)
    requires j <= e <= |s|
    requires forall m :: j <= m < e ==> s[m] != '&'
    requires e < |s| ==> s[e] == '&'
    ensures ValueEnd(s, j) == e
  {
  }

  /**
   * Putting `key=` + `k` where a leftmost `key=` stood, followed by text that
   * starts with `&` (or nothing), yields a text whose leftmost match is at the
   * same place, captures exactly `k`, and is followed by that text.
   */
  lemma {:induction false} Splice(s: string, i: nat, k: string, t: string)
    requires i + 4 <= |s| && s[i..i + 4] == KeyEq
    requires forall j :: 0 <= j < i ==> !MatchAt(s, j)
    requires CapturableKey(k) && AfterMatch(t)
    ensures var r := s[..i] + KeyEq + k + t;
      && FirstMatch(r) == Some(i)
      && MatchEnd(r, i) == i + 4 + |k|
      && Capture(r, i) == k
      && r[MatchEnd(r, i)..] == t
  {
    var r := s[..i] + KeyEq + k + t;
    assert r[..i + 4] == s[..i + 4];
    MatchDependsOnPrefix(s, r, i);
    assert r[i..i + 4] == KeyEq;
    assert r[i + 4] == k[0];
    assert MatchAt(r, i);
    FirstMatchIs(r, i);
    forall m | i + 4 <= m < i + 4 + |k|
      ensures r[m] != '&'
    {
      assert r[m] == k[m - i - 4];
    }
    ValueEndIs(r, i + 4, i + 4 + |k|);
    assert r[i + 4 + |k|..] == t;
    assert r[i + 4..i + 4 + |k|] == k;
  }

  // ----- The JavaScript first-match rewrite -----

  /**
   * The JavaScript rewrite leaves the text as it was exactly when there is no
   * match or the leftmost match already captures `k` (the test behind
   * `originalUrl !== req.url`).
   */
  lemma ReplaceFirstUnchangedIff(s: string, k: string)
    ensures ReplaceFirst(s, k) == s <==>
      (FirstMatch(s).None? || Capture(s, FirstMatch(s).value) == k)
  {
    match FirstMatch(s)
    case None =>
    case Some(i) =>
      var e := MatchEnd(s, i);
      var c := Capture(s, i);
      assert s == s[..i] + KeyEq + c + s[e..] by {
        assert s == s[..i] + s[i..i + 4] + s[i + 4..];
      }
      if ReplaceFirst(s, k) == s {
        var r := ReplaceFirst(s, k);
        assert r == s[..i] + KeyEq + k + s[e..];
        CancelPrefix(s[..i] + KeyEq, k + s[e..], c + s[e..]);
        CancelSuffix(k, c, s[e..]);
      }
  }

  /**
   * After the JavaScript rewrite with a capturable key, the leftmost match
   * sits where it was, captures the trusted key, and every character before
   * it and after it is kept.
   */
  lemma ReplaceFirstPlacesKey(s: string, k: string)
    requires CapturableKey(k)
    requires FirstMatch(s).Some?
    ensures var i := FirstMatch(s).value; var r := ReplaceFirst(s, k);
      && FirstMatch(r) == Some(i)
      && Capture(r, i) == k
      && r[..i] == s[..i]
      && r[MatchEnd(r, i)..] == s[MatchEnd(s, i)..]
  {
    var i := FirstMatch(s).value;
    Splice(s, i, k, s[MatchEnd(s, i)..]);
  }

  /** The JavaScript rewrite with a capturable key is idempotent. */
  lemma ReplaceFirstIdempotent(s: string, k: string)
    requires CapturableKey(k)
    ensures ReplaceFirst(ReplaceFirst(s, k), k) == ReplaceFirst(s, k)
  {
    if FirstMatch(s).Some? {
      ReplaceFirstPlacesKey(s, k);
      ReplaceFirstUnchangedIff(ReplaceFirst(s, k), k);
    }
  }

  // ----- The Python all-match rewrite -----

  /** Rewriting text that starts with `&` (or is empty) gives text that starts with `&` (or is empty). */
  lemma ReplaceAllKeepsAfterMatch(s: string, k: string)
    requires AfterMatch(s)
    ensures AfterMatch(ReplaceAll(s, k))
  {
    match FirstMatch(s)
    case None =>
    case Some(i) =>
      assert i > 0;
      assert ReplaceAll(s, k)[0] == s[..i][0];
  }

  /** One step of the left-to-right scan: the leftmost match and what follows it. */
  lemma ScanStep(s: string, k: string, i: nat)
    requires FirstMatch(s) == Some(i)
    ensures MatchAt(s, i)
    ensures s == s[..i] + KeyEq + Capture(s, i) + s[MatchEnd(s, i)..]
    ensures ReplaceAll(s, k) == s[..i] + KeyEq + k + ReplaceAll(s[MatchEnd(s, i)..], k)
    ensures AllCapturesAre(s, k) <==> Capture(s, i) == k && AllCapturesAre(s[MatchEnd(s, i)..], k)
  {
    assert s == s[..i] + s[i..i + 4] + s[i + 4..];
  }

  /** The Python rewrite leaves the text as it was exactly when every match already captures `k`. */
  lemma {:induction false} ReplaceAllUnchangedIff(s: string, k: string)
    requires CapturableKey(k)
    ensures ReplaceAll(s, k) == s <==> AllCapturesAre(s, k)
    decreases |s|
  {
    if FirstMatch(s).Some? {
      var i := FirstMatch(s).value;
      var u := s[MatchEnd(s, i)..];
      ReplaceAllUnchangedIff(u, k);
      if ReplaceAll(s, k) == s {
        UnchangedStep(s, k, i);
      } else {
        ChangedStep(s, k, i);
      }
    }
  }

  /** If the scan step rewrites nothing, the leftmost capture is `k` and the rest is unchanged. */
  lemma UnchangedStep(s: string, k: string, i: nat)
    requires CapturableKey(k) && FirstMatch(s) == Some(i)
    requires ReplaceAll(s, k) == s
    ensures Capture(s, i) == k
    ensures ReplaceAll(s[MatchEnd(s, i)..], k) == s[MatchEnd(s, i)..]
  {
    ScanStep(s, k, i);
    var c := Capture(s, i);
    var u := s[MatchEnd(s, i)..];
    var t := ReplaceAll(u, k);
    var p := s[..i] + KeyEq;
    assert p + k + t == p + c + u;
    DropPrefix(p, k, t);
    DropPrefix(p, c, u);
    if c != k {
      ReplaceAllKeepsAfterMatch(u, k);
      DifferentValuesDiffer(k, t, c, u);
    }
    CancelPrefix(k, t, u);
  }

  /** If the scan step rewrites something, the leftmost capture differs from `k` or the rest changes. */
  lemma ChangedStep(s: string, k: string, i: nat)
    requires FirstMatch(s) == Some(i)
    requires ReplaceAll(s, k) != s
    ensures Capture(s, i) != k || ReplaceAll(s[MatchEnd(s, i)..], k) != s[MatchEnd(s, i)..]
  {
    ScanStep(s, k, i);
  }

  /** After the Python rewrite with a capturable key, every match captures the trusted key. */
  lemma {:induction false} ReplaceAllCapturesKey(s: string, k: string)
    requires CapturableKey(k)
    ensures AllCapturesAre(ReplaceAll(s, k), k)
    decreases |s|
  {
    match FirstMatch(s)
    case None =>
    case Some(i) =>
      var u := s[MatchEnd(s, i)..];
      var t := ReplaceAll(u, k);
      ReplaceAllKeepsAfterMatch(u, k);
      ReplaceAllCapturesKey(u, k);
      Splice(s, i, k, t);
  }

  /** The Python rewrite with a capturable key is idempotent. */
  lemma ReplaceAllIdempotent(s: string, k: string)
    requires CapturableKey(k)
    ensures ReplaceAll(ReplaceAll(s, k), k) == ReplaceAll(s, k)
  {
    ReplaceAllCapturesKey(s, k);
    ReplaceAllUnchangedIff(ReplaceAll(s, k), k);
  }

  // ----- Comparing the two rewrites -----

  /**
   * The JavaScript first-match rewrite and the Python all-match rewrite give
   * the same text exactly when every match after the leftmost one already
   * captures the trusted key.
   */
  lemma FirstAndAllAgreeIff(s: string, k: string)
    requires CapturableKey(k)
    ensures ReplaceFirst(s, k) == ReplaceAll(s, k) <==>
      (FirstMatch(s).None? || AllCapturesAre(s[MatchEnd(s, FirstMatch(s).value)..], k))
  {
    match FirstMatch(s)
    case None =>
    case Some(i) =>
      var u := s[MatchEnd(s, i)..];
      ReplaceAllUnchangedIff(u, k);
      if ReplaceFirst(s, k) == ReplaceAll(s, k) {
        CancelPrefix(s[..i] + KeyEq + k, u, ReplaceAll(u, k));
      }
  }

  /** With at most one match the two rewrites agree. */
  lemma FirstAndAllAgree(s: string, k: string)
    requires MatchCount(s) <= 1
    ensures ReplaceFirst(s, k) == ReplaceAll(s, k)
  {
    match FirstMatch(s)
    case None =>
    case Some(i) =>
      var u := s[MatchEnd(s, i)..];
      assert MatchCount(u) == 0;
      assert FirstMatch(u).None?;
  }

  /**
   * In `a + "key=" + v + t`, with no match inside `a + "key="` before the
   * `key=`, a capturable `v` and `t` starting with `&` (or empty), the
   * leftmost match is that `key=` and it captures `v`.
   */
  lemma {:induction false} LeadingMatch(a: string, v: string, t: string)
    requires forall j :: 0 <= j < |a| ==> !MatchAt(a + KeyEq, j)
    requires CapturableKey(v) && AfterMatch(t)
    ensures var s := a + KeyEq + v + t;
      && FirstMatch(s) == Some(|a|)
      && Capture(s, |a|) == v
      && s[MatchEnd(s, |a|)..] == t
  {
    var s := a + KeyEq + v + t;
    assert forall j :: 0 <= j < |a| ==> !MatchAt(s, j) by {
      assert s[..|a| + 4] == (a + KeyEq)[..|a| + 4];
      MatchDependsOnPrefix(s, a + KeyEq, |a|);
    }
    assert s[|a|..|a| + 4] == KeyEq;
    assert s[..|a|] == a;
    Splice(s, |a|, v, t);
  }

  // ----- The rewrite, piece by piece -----

  /** The text `gaps[0] + "key=" + vals[0] + gaps[1] + ... + "key=" + vals[n - 1] + gaps[n]`. */
  function Fill(gaps: seq<string>, vals: seq<string>): string
    requires |gaps| == |vals| + 1
    decreases |vals|
  {
    if vals == [] then gaps[0] else gaps[0] + KeyEq + vals[0] + Fill(gaps[1..], vals[1..])
  }

  /** `n` copies of `k`. */
  function Copies(k: string, n: nat): (r: seq<string>)
    ensures |r| == n && forall i | 0 <= i < n :: r[i] == k
  {
    if n == 0 then [] else [k] + Copies(k, n - 1)
  }

  /** No match starts inside `g` when `g` is followed by `key=`: the search passes over `g`. */
  predicate NoMatchIn(g: string) {
    forall j | 0 <= j < |g| :: !MatchAt(g + KeyEq, j)
  }

  /**
   * The `key=` occurrences between the gaps are the matches a left-to-right
   * scan for `key=([^&]+)` finds, and the values are what it captures: no
   * match starts inside a gap, every value is non-empty, free of `&` and
   * followed by `&` or the end, and the last gap holds no match.
   */
  predicate IsScan(gaps: seq<string>, vals: seq<string>)
    requires |gaps| == |vals| + 1
    decreases |vals|
  {
    if vals == [] then FirstMatch(gaps[0]).None?
    else
      && NoMatchIn(gaps[0]) && CapturableKey(vals[0])
      && AfterMatch(Fill(gaps[1..], vals[1..]))
      && IsScan(gaps[1..], vals[1..])
  }

  /** The gaps and the captured values of a left-to-right scan over `s`. */
  function Pieces(s: string): (p: (seq<string>, seq<string>))
    ensures |p.0| == |p.1| + 1
    decreases |s|
  {
    match FirstMatch(s)
    case None => ([s], [])
    case Some(i) =>
      var rest := Pieces(s[MatchEnd(s, i)..]);
      ([s[..i]] + rest.0, [Capture(s, i)] + rest.1)
  }

  /** The pieces of `s` put back together give `s`, and they are the scan's matches. */
  lemma {:induction false} PiecesOf(s: string)
    ensures s == Fill(Pieces(s).0, Pieces(s).1)
    ensures IsScan(Pieces(s).0, Pieces(s).1)
    decreases |s|
  {
    match FirstMatch(s)
    case None =>
    case Some(i) =>
      var t := s[MatchEnd(s, i)..];
      var c := Capture(s, i);
      assert s == s[..i] + KeyEq + c + t by {
        ScanStep(s, "", i);
      }
      assert NoMatchIn(s[..i]) by {
        var a := s[..i] + KeyEq;
        assert s[..i + 4] == a[..i + 4];
        MatchDependsOnPrefix(s, a, i);
      }
      PiecesOf(t);
      var (g, v) := Pieces(s);
      assert g[0] == s[..i] && v[0] == c && g[1..] == Pieces(t).0 && v[1..] == Pieces(t).1;
      assert Fill(g[1..], v[1..]) == t && AfterMatch(t);
  }

  /** One step of the scan: a leading match splits off one gap and one value. */
  lemma PiecesStep(g: string, v: string, t: string)
    requires NoMatchIn(g) && CapturableKey(v) && AfterMatch(t)
    ensures Pieces(g + KeyEq + v + t) == ([g] + Pieces(t).0, [v] + Pieces(t).1)
  {
    var s := g + KeyEq + v + t;
    LeadingMatch(g, v, t);
    assert s[..|g|] == g;
  }

  /** A decomposition that follows the scan is the one `Pieces` finds: the scan's matches are unique. */
  lemma {:induction false} PiecesOfFill(gaps: seq<string>, vals: seq<string>)
    requires |gaps| == |vals| + 1 && IsScan(gaps, vals)
    ensures Pieces(Fill(gaps, vals)) == (gaps, vals)
    decreases |vals|
  {
    if vals != [] {
      var t := Fill(gaps[1..], vals[1..]);
      PiecesStep(gaps[0], vals[0], t);
      PiecesOfFill(gaps[1..], vals[1..]);
      assert [gaps[0]] + gaps[1..] == gaps && [vals[0]] + vals[1..] == vals;
    } else {
      assert gaps == [gaps[0]];
    }
  }

  /**
   * Python's rewrite keeps every gap and puts `k` in place of every captured
   * value: the result is the input with each credential replaced where it stood.
   */
  lemma {:induction false} ReplaceAllFills(gaps: seq<string>, vals: seq<string>, k: string)
    requires |gaps| == |vals| + 1 && IsScan(gaps, vals)
    ensures ReplaceAll(Fill(gaps, vals), k) == Fill(gaps, Copies(k, |vals|))
    decreases |vals|
  {
    if vals != [] {
      var t := Fill(gaps[1..], vals[1..]);
      LeadingMatch(gaps[0], vals[0], t);
      var s := gaps[0] + KeyEq + vals[0] + t;
      ScanStep(s, k, |gaps[0]|);
      assert s[..|gaps[0]|] == gaps[0];
      ReplaceAllFills(gaps[1..], vals[1..], k);
      assert Copies(k, |vals|)[1..] == Copies(k, |vals| - 1);
    }
  }

  /** JavaScript's rewrite puts `k` in place of the first captured value and keeps the rest of the text. */
  lemma ReplaceFirstFills(gaps: seq<string>, vals: seq<string>, k: string)
    requires |gaps| == |vals| + 1 && IsScan(gaps, vals) && vals != []
    ensures ReplaceFirst(Fill(gaps, vals), k) == Fill(gaps, [k] + vals[1..])
  {
    var t := Fill(gaps[1..], vals[1..]);
    LeadingMatch(gaps[0], vals[0], t);
    var s := gaps[0] + KeyEq + vals[0] + t;
    assert s[..|gaps[0]|] == gaps[0];
    assert ([k] + vals[1..])[1..] == vals[1..];
  }

  /**
   * Every text is its scan's gaps and values put together, and Python's
   * rewrite of it is the same gaps with `k` in place of each value.
   */
  lemma ReplaceAllInPlace(s: string, k: string)
    ensures var (gaps, vals) := Pieces(s);
      && s == Fill(gaps, vals) && IsScan(gaps, vals)
      && ReplaceAll(s, k) == Fill(gaps, Copies(k, |vals|))
  {
    PiecesOf(s);
    ReplaceAllFills(Pieces(s).0, Pieces(s).1, k);
  }

  // ----- Examples -----

  /** Only the first credential is rewritten: `/v1/x?key=AAA&other=1&key=BBB`. */
  lemma FirstOnlyExample(path: string, k: string)
    requires path == "/v1/x?" + "key=AAA" + "&other=1&key=BBB"
    ensures ReplaceFirst(path, k) == "/v1/x?" + "key=" + k + "&other=1&key=BBB"
  {
    var a := "/v1/x?";
    var t := "&other=1&key=BBB";
    assert 'k' !in a by {
      assert a[0] == '/' && a[1] == 'v' && a[2] == '1' && a[3] == '/' && a[4] == 'x' && a[5] == '?';
    }
    NoMatchBeforeKeyEq(a);
    LeadingMatch(a, "AAA", t);
    assert path == a + KeyEq + "AAA" + t;
    assert path[..|a|] == a;
  }

  /** An empty `key=` is skipped and the next non-empty one is rewritten: `?key=&key=B`. */
  lemma EmptyKeySkippedExample(path: string, k: string)
    requires path == "?key=&key=B"
    ensures ReplaceFirst(path, k) == "?key=&key=" + k
  {
    var a := "?key=&";
    forall j | 0 <= j < |a| ensures !MatchAt(a + KeyEq, j) {
      if j == 1 { assert (a + KeyEq)[5] == '&'; } else { assert (a + KeyEq)[j] != 'k'; }
    }
    LeadingMatch(a, "B", "");
    assert a + KeyEq + "B" + "" == path;
  }

  /** The pattern is unanchored: the `key=` inside `apikey=` is rewritten. */
  lemma UnanchoredExample(path: string, k: string)
    requires path == "/v1/x?apikey=SECRET"
    ensures ReplaceFirst(path, k) == "/v1/x?apikey=" + k
  {
    var a := "/v1/x?api";
    forall j | 0 <= j < |a| ensures !MatchAt(a + KeyEq, j) {
      assert (a + KeyEq)[j] != 'k';
    }
    LeadingMatch(a, "SECRET", "");
    assert a + KeyEq + "SECRET" + "" == path;
  }

  /**
   * The Python rewrite replaces both values of `?key=<v>&key=<w>`, where the
   * JavaScript rewrite keeps `w` whenever it differs from the trusted key.
   */
  lemma TwoValuesExample(path: string, a: string, v: string, w: string, k: string)
    requires forall j :: 0 <= j < |a| ==> !MatchAt(a + KeyEq, j)
    requires CapturableKey(v) && CapturableKey(w)
    requires path == a + KeyEq + v + ("&" + KeyEq + w)
    ensures ReplaceAll(path, k) == a + KeyEq + k + ("&" + KeyEq + k)
    ensures ReplaceFirst(path, k) == a + KeyEq + k + ("&" + KeyEq + w)
  {
    var gaps := [a, "&", ""];
    assert path == Fill(gaps, [v, w]) by {
      FillTwo(a, v, w);
    }
    TwoValuesScan(a, v, w);
    ReplaceAllFills(gaps, [v, w], k);
    assert Copies(k, 2) == [k, k];
    FillTwo(a, k, k);
    ReplaceFirstFills(gaps, [v, w], k);
    assert [k] + [v, w][1..] == [k, w];
    FillTwo(a, k, w);
  }

  /** `a`, `&` and nothing, around two capturable values, are the scan of their text. */
  lemma TwoValuesScan(a: string, v: string, w: string)
    requires forall j :: 0 <= j < |a| ==> !MatchAt(a + KeyEq, j)
    requires CapturableKey(v) && CapturableKey(w)
    ensures IsScan([a, "&", ""], [v, w])
  {
    var gaps := [a, "&", ""];
    assert Fill(gaps[2..], []) == "";
    assert IsScan(gaps[1..], [w]) by {
      assert !MatchAt("&" + KeyEq, 0);
      assert gaps[1..][1..] == [""];
    }
    assert gaps[1..] == ["&", ""] && [v, w][1..] == [w];
    assert Fill(["&", ""], [w]) == "&" + KeyEq + w + "";
  }

  /** Two values between the gaps `a`, `&` and nothing. */
  lemma FillTwo(a: string, x: string, y: string)
    ensures Fill([a, "&", ""], [x, y]) == a + KeyEq + x + ("&" + KeyEq + y)
  {
    assert [a, "&", ""][1..] == ["&", ""] && [x, y][1..] == [y];
    assert ["&", ""][1..] == [""] && [y][1..] == [];
    assert Fill(["&", ""], [y]) == "&" + KeyEq + y + "";
  }

  /** `a + "key=" + v`, with no match starting before its `key=`, is rewritten to `a + "key=" + k`. */
  lemma SingleMatchRewritten(a: string, v: string, k: string)
    requires forall j :: 0 <= j < |a| ==> !MatchAt(a + KeyEq, j)
    requires CapturableKey(v)
    ensures ReplaceAll(a + KeyEq + v, k) == a + KeyEq + k
  {
    var s := a + KeyEq + v;
    LeadingMatch(a, v, "");
    assert s + "" == s;
    ScanStep(s, k, |a|);
    assert s[..|a|] == a;
  }

  /** Without the letter `k` in `a`, no match starts inside `a` in `a + "key="`. */
  lemma NoMatchBeforeKeyEq(a: string)
    requires 'k' !in a
    ensures forall j :: 0 <= j < |a| ==> !MatchAt(a + KeyEq, j)
  {
    forall j | 0 <= j < |a| ensures !MatchAt(a + KeyEq, j) {
      assert (a + KeyEq)[j] == a[j];
    }
  }

  /** A text without `key=` has no match, so the `includes('key=')` guard only skips work. */
  lemma MatchNeedsKeyEq(s: string)
    ensures FirstMatch(s).Some? ==> Contains(s, KeyEq)
  {
    if FirstMatch(s).Some? {
      assert OccursAt(s, KeyEq, FirstMatch(s).value);
    }
  }

  /** A text without the letter `k` holds no `key=`. */
  lemma WithoutKChar(s: string)
    requires 'k' !in s
    ensures !Contains(s, KeyEq)
  {
    assert KeyEq[0] == 'k';
    forall i | 0 <= i <= |s| - |KeyEq|
      ensures !OccursAt(s, KeyEq, i)
    {
      assert s[i] != 'k';
      assert s[i..i + |KeyEq|][0] == s[i];
    }
  }

  // ----- Small facts about sequences -----

  lemma CancelPrefix(p: string, x: string, y: string)
    requires p + x == p + y
    ensures x == y
  {
    assert x == (p + x)[|p|..];
    assert y == (p + y)[|p|..];
  }

  lemma DropPrefix(p: string, x: string, y: string)
    ensures (p + x + y)[|p|..] == x + y
  {
  }

  lemma CancelSuffix(x: string, y: string, q: string)
    requires x + q == y + q
    ensures x == y
  {
    assert x == (x + q)[..|x|];
    assert y == (y + q)[..|y|];
  }

  /** Two different captures followed by what can follow a match never give equal text. */
  lemma DifferentValuesDiffer(k: string, t: string, c: string, u: string)
    requires k != c && '&' !in k && '&' !in c
    requires AfterMatch(t) && AfterMatch(u)
    ensures k + t != c + u
  {
    if |k| == |c| {
      if k + t == c + u {
        CancelSuffix(k, c, t);
      }
    } else if |k| < |c| {
      assert |c + u| > |k|;
      assert (c + u)[|k|] == c[|k|] != '&';
      if |k + t| > |k| {
        assert (k + t)[|k|] == t[0] == '&';
      }
    } else {
      assert |k + t| > |c|;
      assert (k + t)[|c|] == k[|c|] != '&';
      if |c + u| > |c| {
        assert (c + u)[|c|] == u[0] == '&';
      }
    }
  }
}
