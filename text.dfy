/** String handling shared by the DNS and mail checks: whitespace tokenising of a
    rendered resource record, joining tokens back together, splitting on a single
    character, reversing, and character removal. */
module Text {

  /** Whitespace as recognised when a rendered record is split: space and the ASCII
      control characters U+0009 (tab) to U+000D (carriage return). */
  predicate IsSpace(c: char) {
    c == ' ' || ('\t' <= c <= '\r')
  }

  /** A token produced by the tokeniser: non-empty and free of whitespace. */
  predicate IsWord(w: string) {
    |w| > 0 && forall i :: 0 <= i < |w| ==> !IsSpace(w[i])
  }

  predicate AllWords(ws: seq<string>) {
    forall i :: 0 <= i < |ws| ==> IsWord(ws[i])
  }

  /** The longest whitespace-free prefix of `s`. */
  function LeadingWord(s: string): (w: string)
    ensures |w| <= |s| && w == s[..|w|]
    ensures forall i :: 0 <= i < |w| ==> !IsSpace(w[i])
    ensures |w| == |s| || IsSpace(s[|w|])
  {
    if s == [] || IsSpace(s[0]) then "" else [s[0]] + LeadingWord(s[1..])
  }

  /** The maximal whitespace-free runs of `s`, left to right (what `split_whitespace`
      yields): never an empty token, however the whitespace is laid out. */
  function Tokens(s: string): (ts: seq<string>)
    ensures AllWords(ts)
    decreases |s|
  {
    if s == [] then []
    else if IsSpace(s[0]) then Tokens(s[1..])
    else
      var w := LeadingWord(s);
      [w] + Tokens(s[|w|..])
  }

  /** `s` with all whitespace removed. */
  function NonSpace(s: string): string {
    if s == [] then "" else (if IsSpace(s[0]) then "" else [s[0]]) + NonSpace(s[1..])
  }

  function Concat(ws: seq<string>): string {
    if ws == [] then "" else ws[0] + Concat(ws[1..])
  }

  /** `parts` joined with `sep` between neighbours (an empty list gives ""). */
  function Join(parts: seq<string>, sep: string): string {
    if |parts| == 0 then ""
    else if |parts| == 1 then parts[0]
    else parts[0] + sep + Join(parts[1..], sep)
  }

  /** Token `i` of `parts`, or "" when there are not that many tokens. */
  function Field(parts: seq<string>, i: nat): string {
    if i < |parts| then parts[i] else ""
  }

  /** Tokens 4 onward joined with single spaces; a list too short to have a token 4
      falls back to the one-element list [""] before joining. */
  function DataField(parts: seq<string>): string {
    Join(if 4 <= |parts| then parts[4..] else [""], " ")
  }

  /** The pieces of `s` between occurrences of `c`, empty pieces included; the empty
      string gives one empty piece. */
  function Split(s: string, c: char): (parts: seq<string>)
    ensures |parts| >= 1
    ensures forall i :: 0 <= i < |parts| ==> c !in parts[i]
  {
    if s == [] then [""]
    else
      var rest := Split(s[1..], c);
      if s[0] == c then [""] + rest
      else [[s[0]] + rest[0]] + rest[1..]
  }

  function Reverse<T>(s: seq<T>): (r: seq<T>)
    ensures |r| == |s|
    ensures forall i :: 0 <= i < |s| ==> r[i] == s[|s| - 1 - i]
  {
    if s == [] then [] else Reverse(s[1..]) + [s[0]]
  }

  /** `s` with every occurrence of `c` removed. */
  function Without(s: string, c: char): (r: string)
    ensures c !in r
    ensures forall x :: x != c ==> (x in r <==> x in s)
    ensures c !in s ==> r == s
  {
    if s == [] then ""
    else (if s[0] == c then "" else [s[0]]) + Without(s[1..], c)
  }

  // ---------------------------------------------------------------------------
  // Tokenising and joining

  lemma {:induction false} LeadingWordOf(w: string, t: string)
    requires IsWord(w)
    requires t == [] || IsSpace(t[0])
    ensures LeadingWord(w + t) == w
  {
    if |w| > 1 {
      var w' := w[1..];
      assert IsWord(w');
      assert (w + t)[1..] == w' + t;
      LeadingWordOf(w', t);
    } else {
      assert (w + t)[1..] == t;
    }
  }

  lemma TokensOfWord(w: string)
    requires IsWord(w)
    ensures Tokens(w) == [w]
  {
    LeadingWordOf(w, "");
    assert w + "" == w;
  }

  /** Joining tokens with single spaces and tokenising again gives the tokens back. */
  lemma {:induction false} TokensOfJoin(ws: seq<string>)
    requires AllWords(ws)
    ensures Tokens(Join(ws, " ")) == ws
  {
    if |ws| == 1 {
      TokensOfWord(ws[0]);
    } else if |ws| > 1 {
      var w, rest := ws[0], Join(ws[1..], " ");
      var s := w + " " + rest;
      assert s == w + (" " + rest);
      LeadingWordOf(w, " " + rest);
      assert s[|w|..] == " " + rest;
      assert (" " + rest)[1..] == rest;
      TokensOfJoin(ws[1..]);
      assert ws == [w] + ws[1..];
    }
  }

  /** A string that starts with a non-whitespace character has a non-empty leading word. */
  lemma LeadingWordNonEmpty(s: string)
    requires s != [] && !IsSpace(s[0])
    ensures IsWord(LeadingWord(s))
  {
  }

  /** Tokenising splits at every whitespace character: the tokens of `a`, a
      whitespace character, then `b` are the tokens of `a` followed by those of `b`.
      With `TokensOfWord` this fixes the tokens of every layout of whitespace. */
  lemma {:induction false} TokensSplitAtSpace(a: string, x: char, b: string)
    requires IsSpace(x)
    ensures Tokens(a + [x] + b) == Tokens(a) + Tokens(b)
    decreases |a|
  {
    var s := a + [x] + b;
    if a == [] {
      assert s == [x] + b && s[1..] == b;
    } else if IsSpace(a[0]) {
      assert s[0] == a[0] && s[1..] == a[1..] + [x] + b;
      TokensSplitAtSpace(a[1..], x, b);
    } else {
      var w := LeadingWord(a);
      LeadingWordNonEmpty(a);
      var rest := a[|w|..];
      assert a == w + rest;
      assert s == w + (rest + [x] + b);
      assert (rest + [x] + b)[0] == (if rest == [] then x else rest[0]);
      LeadingWordOf(w, rest + [x] + b);
      assert s[0] == a[0];
      assert s[|w|..] == rest + [x] + b;
      TokensSplitAtSpace(rest, x, b);
    }
  }

  /** Tokenising is a normal form: re-joining the tokens and tokenising again changes nothing. */
  lemma TokensNormal(s: string)
    ensures Tokens(Join(Tokens(s), " ")) == Tokens(s)
  {
    TokensOfJoin(Tokens(s));
  }

  lemma {:induction false} NonSpaceAppend(a: string, b: string)
    ensures NonSpace(a + b) == NonSpace(a) + NonSpace(b)
  {
    if a == [] {
      assert a + b == b;
    } else {
      assert (a + b)[0] == a[0];
      assert (a + b)[1..] == a[1..] + b;
      NonSpaceAppend(a[1..], b);
    }
  }

  lemma {:induction false} NonSpaceOfFree(w: string)
    requires forall i :: 0 <= i < |w| ==> !IsSpace(w[i])
    ensures NonSpace(w) == w
  {
    if w != [] {
      NonSpaceOfFree(w[1..]);
    }
  }

  /** Tokenising drops exactly the whitespace: the tokens, laid end to end, are the
      non-whitespace characters of the line in their original order. */
  lemma {:induction false} TokensKeepText(s: string)
    ensures Concat(Tokens(s)) == NonSpace(s)
    decreases |s|
  {
    if s == [] {
    } else if IsSpace(s[0]) {
      TokensKeepText(s[1..]);
    } else {
      var w := LeadingWord(s);
      assert s == w + s[|w|..];
      NonSpaceAppend(w, s[|w|..]);
      NonSpaceOfFree(w);
      TokensKeepText(s[|w|..]);
    }
  }

  /** Joining non-empty tokens gives "" exactly when there are no tokens. */
  lemma JoinEmpty(ws: seq<string>)
    requires AllWords(ws)
    ensures Join(ws, " ") == "" <==> |ws| == 0
  {
    if |ws| >= 1 {
      assert IsWord(ws[0]);
      assert Join(ws, " ")[..|ws[0]|] == ws[0];
    }
  }

  /** The data field is "" exactly when the line has fewer than five tokens, and
      otherwise it is tokens 4 onward joined with single spaces, which tokenises
      back to those tokens. */
  lemma DataFieldOf(parts: seq<string>)
    requires AllWords(parts)
    ensures DataField(parts) == "" <==> |parts| < 5
    ensures |parts| >= 4 ==> DataField(parts) == Join(parts[4..], " ")
    ensures |parts| >= 5 ==> Tokens(DataField(parts)) == parts[4..]
  {
    if 4 <= |parts| {
      assert AllWords(parts[4..]);
      JoinEmpty(parts[4..]);
      if |parts| >= 5 {
        TokensOfJoin(parts[4..]);
      }
    }
  }

  // ---------------------------------------------------------------------------
  // Splitting on one character

  /** Joining the pieces with the separator restores the string. */
  lemma {:induction false} JoinSplit(s: string, c: char)
    ensures Join(Split(s, c), [c]) == s
  {
    if s != [] {
      var rest := Split(s[1..], c);
      JoinSplit(s[1..], c);
      if s[0] == c {
        assert Join([""] + rest, [c]) == "" + [c] + Join(rest, [c]);
      } else if |rest| == 1 {
        assert [[s[0]] + rest[0]] + rest[1..] == [[s[0]] + rest[0]];
      } else {
        var parts := [[s[0]] + rest[0]] + rest[1..];
        assert parts[1..] == rest[1..];
        assert Join(rest, [c]) == rest[0] + [c] + Join(rest[1..], [c]);
      }
    }
  }

  lemma {:induction false} SplitPrefix(w: string, t: string, c: char)
    requires c !in w
    ensures Split(w + t, c) == [w + Split(t, c)[0]] + Split(t, c)[1..]
  {
    if w != [] {
      assert (w + t)[0] == w[0] != c;
      assert (w + t)[1..] == w[1..] + t;
      SplitPrefix(w[1..], t, c);
      var p := Split(t, c);
      assert Split(w[1..] + t, c)[1..] == p[1..];
      assert [w[0]] + (w[1..] + p[0]) == w + p[0];
    } else {
      var p := Split(t, c);
      assert w + t == t && w + p[0] == p[0];
      assert [p[0]] + p[1..] == p;
    }
  }

  /** A leading separator splits off one empty piece. */
  lemma SplitAtSeparator(rest: string, c: char)
    ensures Split([c] + rest, c) == [""] + Split(rest, c)
  {
    assert ([c] + rest)[1..] == rest;
  }

  /** Splitting a join of separator-free pieces gives the pieces back. */
  lemma {:induction false} SplitJoin(parts: seq<string>, c: char)
    requires |parts| >= 1
    requires forall i :: 0 <= i < |parts| ==> c !in parts[i]
    ensures Split(Join(parts, [c]), c) == parts
  {
    var w := parts[0];
    if |parts| == 1 {
      SplitPrefix(w, "", c);
      assert w + "" == w;
    } else {
      var rest := Join(parts[1..], [c]);
      assert Join(parts, [c]) == w + ([c] + rest);
      SplitPrefix(w, [c] + rest, c);
      SplitAtSeparator(rest, c);
      SplitJoin(parts[1..], c);
      var after := Split([c] + rest, c);
      assert after[0] == "" && after[1..] == parts[1..];
      assert w + "" == w;
      assert [w] + parts[1..] == parts;
    }
  }

  /** Removal works piece by piece: removing from a concatenation removes from each
      part. */
  lemma {:induction false} WithoutAppend(a: string, b: string, c: char)
    ensures Without(a + b, c) == Without(a, c) + Without(b, c)
  {
    if a == [] {
      assert a + b == b;
    } else {
      assert (a + b)[0] == a[0];
      assert (a + b)[1..] == a[1..] + b;
      WithoutAppend(a[1..], b, c);
    }
  }

  /** On one character, removal drops exactly that character. */
  lemma WithoutChar(x: char, c: char)
    ensures Without([x], c) == if x == c then "" else [x]
  {
    assert [x][1..] == "";
  }

  lemma ReverseReverse<T>(s: seq<T>)
    ensures Reverse(Reverse(s)) == s
  {
  }

  /** Concatenation regrouped; stated on its own so that a caller can supply exactly
      the one regrouping a proof needs. */
  lemma AppendAssoc<T>(a: seq<T>, b: seq<T>, c: seq<T>)
    ensures (a + b) + c == a + (b + c)
  {
  }
}
