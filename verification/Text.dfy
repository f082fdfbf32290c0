/**
  The small parser behind the authentication headers: cutting a string at a separator, and
  reading a list of key=value pairs with optional quotes.
*/
module Text {
  import opened Basics

  // ---- Split ----

  /** Position of the first c, |s| when there is none. */
  function First(s: string, c: char): (i: nat)
    ensures i <= |s| && c !in s[..i] && (i < |s| ==> s[i] == c)
    ensures c in s <==> i < |s|
  {
    if s == "" || s[0] == c then 0 else 1 + First(s[1..], c)
  }

  function Last(s: string, c: char): (i: nat)
    requires c in s
    ensures i < |s| && s[i] == c && c !in s[i + 1..]
  {
    if s[|s| - 1] == c then |s| - 1 else Last(s[..|s| - 1], c)
  }

  function Split(s: string, sep: char): seq<string> {
    if s == "" then []
    else if sep !in s then [s]
    else [s[..First(s, sep)]] + Split(s[First(s, sep) + 1..], sep)
  }

  function Join(pieces: seq<string>, sep: char): string {
    if pieces == [] then ""
    else if |pieces| == 1 then pieces[0]
    else pieces[0] + [sep] + Join(pieces[1..], sep)
  }

  predicate EndsWith(s: string, c: char) {
    s != "" && s[|s| - 1] == c
  }

  lemma {:induction false} PiecesHaveNoSeparator(s: string, sep: char)
    ensures forall p :: p in Split(s, sep) ==> sep !in p
    decreases |s|
  {
    if s != "" && sep in s {
      PiecesHaveNoSeparator(s[First(s, sep) + 1..], sep);
    }
  }

  /** Joining the pieces gives the string back, but for one trailing separator. */
  lemma {:induction false} JoinSplit(s: string, sep: char)
    ensures s == Join(Split(s, sep), sep) + (if EndsWith(s, sep) then [sep] else "")
    decreases |s|
  {
    if s != "" && sep in s {
      var i := First(s, sep);
      var rest := s[i + 1..];
      JoinSplit(rest, sep);
      JoinHead(s[..i], Split(rest, sep), sep);
      EndsLike(s, i, sep);
    }
  }

  lemma EndsLike(s: string, i: nat, sep: char)
    requires i < |s| && s[i] == sep
    ensures s == s[..i] + [sep] + s[i + 1..]
    ensures EndsWith(s, sep) == (s[i + 1..] == "" || EndsWith(s[i + 1..], sep))
    ensures Split(s[i + 1..], sep) == [] <==> s[i + 1..] == ""
  {
  }

  lemma JoinHead(p: string, pieces: seq<string>, sep: char)
    ensures Join([p] + pieces, sep) == if pieces == [] then p else p + [sep] + Join(pieces, sep)
  {
    assert ([p] + pieces)[1..] == pieces;
  }

  lemma FirstAfter(p: string, c: char, rest: string)
    requires c !in p
    ensures First(p + [c] + rest, c) == |p|
  {
    if p == "" {
    } else {
      assert (p + [c] + rest)[1..] == p[1..] + [c] + rest;
      FirstAfter(p[1..], c, rest);
    }
  }

  /** Splitting what was joined gives the pieces back, if the last one is not empty. */
  lemma {:induction false} SplitJoin(pieces: seq<string>, sep: char)
    requires forall p :: p in pieces ==> sep !in p
    requires pieces != [] ==> pieces[|pieces| - 1] != ""
    ensures Split(Join(pieces, sep), sep) == pieces
  {
    if |pieces| == 1 {
      assert sep !in pieces[0];
    } else if |pieces| > 1 {
      var head, rest := pieces[0], pieces[1..];
      SplitJoin(rest, sep);
      assert pieces == [head] + rest;
      JoinHead(head, rest, sep);
      SplitHead(head, sep, Join(rest, sep));
    }
  }

  lemma SplitHead(p: string, sep: char, rest: string)
    requires sep !in p
    ensures Split(p + [sep] + rest, sep) == [p] + Split(rest, sep)
  {
    var s := p + [sep] + rest;
    FirstAfter(p, sep, rest);
    assert s[|p|] == sep;
    assert s[..|p|] == p && s[|p| + 1..] == rest;
  }

  function Occurrences(s: string, c: char): nat {
    if s == "" then 0 else (if s[0] == c then 1 else 0) + Occurrences(s[1..], c)
  }

  lemma {:induction false} OccurrencesConcat(s: string, t: string, c: char)
    ensures Occurrences(s + t, c) == Occurrences(s, c) + Occurrences(t, c)
  {
    if s == "" {
      assert s + t == t;
    } else {
      assert (s + t)[1..] == s[1..] + t;
      OccurrencesConcat(s[1..], t, c);
    }
  }

  lemma {:induction false} OccursIn(s: string, c: char)
    ensures c in s <==> Occurrences(s, c) > 0
  {
    if s != "" {
      OccursIn(s[1..], c);
      assert s == [s[0]] + s[1..];
    }
  }

  /** There is one piece more than separators, but nothing after a trailing separator. */
  lemma {:induction false} PieceCount(s: string, sep: char)
    ensures |Split(s, sep)| == Occurrences(s, sep) + (if s == "" || EndsWith(s, sep) then 0 else 1)
    decreases |s|
  {
    OccursIn(s, sep);
    if s != "" && sep in s {
      var i := First(s, sep);
      PieceCount(s[i + 1..], sep);
      OccursBefore(s, i, sep);
      EndsLike(s, i, sep);
      hide Occurrences, EndsWith, First;
    }
  }

  lemma OccursBefore(s: string, i: nat, sep: char)
    requires i < |s| && s[i] == sep && sep !in s[..i]
    ensures Occurrences(s, sep) == 1 + Occurrences(s[i + 1..], sep)
  {
    assert s == s[..i] + s[i..];
    assert s[i..][1..] == s[i + 1..];
    OccursIn(s[..i], sep);
    OccurrencesConcat(s[..i], s[i..], sep);
  }

  /** The loop of Split, with find_first_of from a moving index. */
  method SplitString(src: string, sep: char) returns (vec: seq<string>)
    ensures vec == Split(src, sep)
  {
    hide Split;
    vec := [];
    var idx := 0;
    assert src[0..] == src;
    while idx < |src|
      invariant idx <= |src|
      invariant vec + Split(src[idx..], sep) == Split(src, sep)
    {
      var oldIdx := idx;
      idx := FindFrom(src, sep, idx);
      if idx < |src| {
        SplitFrom(src, sep, oldIdx, idx);
        vec := vec + [src[oldIdx..idx]];
      } else {
        SplitLast(src[oldIdx..], sep);
        return vec + [src[oldIdx..]];
      }
      idx := idx + 1;
    }
    SplitNothing(src[idx..], sep);
  }

  lemma SplitNothing(s: string, sep: char)
    requires s == ""
    ensures Split(s, sep) == []
  {
  }

  lemma SplitLast(s: string, sep: char)
    requires s != "" && sep !in s
    ensures Split(s, sep) == [s]
  {
  }

  lemma SplitFrom(s: string, sep: char, from: nat, i: nat)
    requires from <= i < |s| && s[i] == sep && sep !in s[from..i]
    ensures Split(s[from..], sep) == [s[from..i]] + Split(s[i + 1..], sep)
  {
    assert s[from..] == s[from..i] + [sep] + s[i + 1..];
    SplitHead(s[from..i], sep, s[i + 1..]);
  }

  /** std::string::find_first_of from an index. */
  method FindFrom(s: string, c: char, from: nat) returns (i: nat)
    requires from <= |s|
    ensures from <= i <= |s| && c !in s[from..i] && (i < |s| ==> s[i] == c)
  {
    i := from;
    while i < |s| && s[i] != c
      invariant from <= i <= |s| && c !in s[from..i]
    {
      i := i + 1;
    }
  }
}
