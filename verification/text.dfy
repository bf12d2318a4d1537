// Textual identifier substitution: `formula.replace(new RegExp(id, 'g'), text)`,
// used by the store's recalc (src/store/useParameterStore.ts:110-114) and by the
// calculation builder's formula check (src/components/CalcBuilderModal.tsx:56-59).
// Ids are treated as literal text, not as regular expressions.

module Text {

  /** p occurs in s at position i. */
  predicate OccursAt(p: string, s: string, i: int) {
    0 <= i && i + |p| <= |s| && s[i..i + |p|] == p
  }

  /** p occurs somewhere in s. */
  predicate Occurs(p: string, s: string) {
    exists i | 0 <= i <= |s| :: OccursAt(p, s, i)
  }

  /** Replaces every occurrence of `pat` in `s` by `rep`, scanning left to right
      without overlaps, as a global regular expression made of `pat` literally does.
      An empty pattern matches before every character and at the end. */
  function ReplaceAll(s: string, pat: string, rep: string): (r: string)
    ensures pat != [] && rep == pat ==> r == s
    ensures pat != [] && |s| < |pat| ==> r == s
    ensures pat == [] ==> rep <= r
    decreases |s|
  {
    if pat == [] then
      if s == [] then rep else rep + [s[0]] + ReplaceAll(s[1..], pat, rep)
    else if |s| < |pat| then s
    else if s[..|pat|] == pat then rep + ReplaceAll(s[|pat|..], pat, rep)
    else [s[0]] + ReplaceAll(s[1..], pat, rep)
  }

  /** The text between the occurrences of `pat` that ReplaceAll replaces. */
  function Pieces(s: string, pat: string): (r: seq<string>)
    requires pat != []
    ensures |r| >= 1 && r[0] <= s
    decreases |s|
  {
    if |s| < |pat| then [s]
    else if s[..|pat|] == pat then [[]] + Pieces(s[|pat|..], pat)
    else
      var rest := Pieces(s[1..], pat);
      [[s[0]] + rest[0]] + rest[1..]
  }

  /** The pieces glued back together with `sep` between consecutive ones. */
  function Join(pieces: seq<string>, sep: string): string
    requires |pieces| >= 1
  {
    if |pieces| == 1 then pieces[0] else pieces[0] + sep + Join(pieces[1..], sep)
  }

  lemma JoinExtendsHead(x: string, pieces: seq<string>, sep: string)
    requires |pieces| >= 1
    ensures Join([x + pieces[0]] + pieces[1..], sep) == x + Join(pieces, sep)
  {
    var ps := [x + pieces[0]] + pieces[1..];
    assert ps[1..] == pieces[1..];
  }

  /** Cutting at the occurrences and gluing back with the pattern gives the text back. */
  lemma {:induction false} JoinPieces(s: string, pat: string)
    requires pat != []
    ensures Join(Pieces(s, pat), pat) == s
    decreases |s|
  {
    if |s| < |pat| {
    } else if s[..|pat|] == pat {
      var rest := Pieces(s[|pat|..], pat);
      JoinPieces(s[|pat|..], pat);
      assert Pieces(s, pat) == [[]] + rest;
      assert ([[]] + rest)[1..] == rest;
      assert Join([[]] + rest, pat) == [] + pat + Join(rest, pat);
      assert s == pat + s[|pat|..];
    } else {
      var rest := Pieces(s[1..], pat);
      JoinPieces(s[1..], pat);
      assert Pieces(s, pat) == [[s[0]] + rest[0]] + rest[1..];
      JoinExtendsHead([s[0]], rest, pat);
      assert s == [s[0]] + s[1..];
    }
  }

  /** Replacing every occurrence is cutting at the occurrences and gluing with the replacement. */
  lemma {:induction false} ReplaceAllJoinsPieces(s: string, pat: string, rep: string)
    requires pat != []
    ensures ReplaceAll(s, pat, rep) == Join(Pieces(s, pat), rep)
    decreases |s|
  {
    if |s| < |pat| {
    } else if s[..|pat|] == pat {
      var rest := Pieces(s[|pat|..], pat);
      ReplaceAllJoinsPieces(s[|pat|..], pat, rep);
      assert ([[]] + rest)[1..] == rest;
    } else {
      var rest := Pieces(s[1..], pat);
      ReplaceAllJoinsPieces(s[1..], pat, rep);
      JoinExtendsHead([s[0]], rest, rep);
    }
  }

  /** No piece contains the pattern: every occurrence left between replacements was replaced. */
  lemma {:induction false} PiecesHoldNoOccurrence(s: string, pat: string, k: nat, i: int)
    requires pat != [] && k < |Pieces(s, pat)|
    ensures !OccursAt(pat, Pieces(s, pat)[k], i)
    decreases |s|
  {
    if |s| < |pat| {
      assert k == 0;
    } else if s[..|pat|] == pat {
      if k > 0 {
        PiecesHoldNoOccurrence(s[|pat|..], pat, k - 1, i);
      }
    } else {
      var rest := Pieces(s[1..], pat);
      if k > 0 {
        PiecesHoldNoOccurrence(s[1..], pat, k, i);
      } else if i == 0 {
        var piece := [s[0]] + rest[0];
        assert piece <= s;
      } else {
        PiecesHoldNoOccurrence(s[1..], pat, 0, i - 1);
        var piece := [s[0]] + rest[0];
        if 1 <= i && i + |pat| <= |piece| {
          assert piece[i..i + |pat|] == rest[0][i - 1..i - 1 + |pat|];
        }
      }
    }
  }

  /** No occurrence of the pattern starts inside a piece, in the text from that piece on:
      the cut is the leftmost, non-overlapping one, so ids that overlap themselves are cut
      as a global replace cuts them. */
  lemma {:induction false} NoOccurrenceStartsInPiece(s: string, pat: string, k: nat, i: int)
    requires pat != [] && k < |Pieces(s, pat)| && 0 <= i < |Pieces(s, pat)[k]|
    ensures !OccursAt(pat, Join(Pieces(s, pat)[k..], pat), i)
    decreases |s|
  {
    var ps := Pieces(s, pat);
    if |s| < |pat| {
    } else if s[..|pat|] == pat {
      var rest := Pieces(s[|pat|..], pat);
      assert k > 0;
      assert ps[k..] == rest[k - 1..];
      NoOccurrenceStartsInPiece(s[|pat|..], pat, k - 1, i);
    } else {
      var rest := Pieces(s[1..], pat);
      if k > 0 {
        assert ps[k..] == rest[k..];
        NoOccurrenceStartsInPiece(s[1..], pat, k, i);
      } else {
        assert ps[0..] == ps;
        JoinPieces(s, pat);
        if i > 0 {
          assert rest[0..] == rest;
          JoinPieces(s[1..], pat);
          assert Join(rest[0..], pat) == s[1..];
          assert ps[0] == [s[0]] + rest[0];
          assert i - 1 < |rest[0]|;
          NoOccurrenceStartsInPiece(s[1..], pat, 0, i - 1);
          assert !OccursAt(pat, s[1..], i - 1);
          if i + |pat| <= |s| {
            assert s[i..i + |pat|] == s[1..][i - 1..i - 1 + |pat|];
          }
        }
      }
    }
  }

  /** A non-empty pattern that does not occur leaves the text as it was. */
  lemma {:induction false} ReplaceAbsent(s: string, pat: string, rep: string)
    requires pat != [] && !Occurs(pat, s)
    ensures ReplaceAll(s, pat, rep) == s
    decreases |s|
  {
    if |s| < |pat| {
    } else {
      assert !OccursAt(pat, s, 0);
      if Occurs(pat, s[1..]) {
        var i :| 0 <= i <= |s[1..]| && OccursAt(pat, s[1..], i);
        assert s[1..][i..i + |pat|] == s[i + 1..i + 1 + |pat|];
        assert OccursAt(pat, s, i + 1);
        assert false;
      }
      ReplaceAbsent(s[1..], pat, rep);
    }
  }

  /** Applies the (id, text) bindings one after another, in list order. */
  function ReplaceEach(s: string, bindings: seq<(string, string)>): string
    decreases |bindings|
  {
    if bindings == [] then s
    else ReplaceEach(ReplaceAll(s, bindings[0].0, bindings[0].1), bindings[1..])
  }

  /** Bindings whose ids are non-empty and absent from the text leave it as it was. */
  lemma {:induction false} ReplaceEachAbsent(s: string, bindings: seq<(string, string)>)
    requires forall k :: 0 <= k < |bindings| ==> bindings[k].0 != [] && !Occurs(bindings[k].0, s)
    ensures ReplaceEach(s, bindings) == s
    decreases |bindings|
  {
    if bindings != [] {
      ReplaceAbsent(s, bindings[0].0, bindings[0].1);
      ReplaceEachAbsent(s, bindings[1..]);
    }
  }
}
