/** The name normaliser behind the `/parse` endpoint (`parse_handwriting`):
    a freeform recipe name is split into words on runs of space, `_` and `-`,
    every non-letter is dropped from each word, each word is title-cased and
    followed by one space, and the result is stripped. Letters are the ASCII
    letters. */
module Handwriting {
  import opened Wrappers

  predicate IsSeparator(c: char) { c == ' ' || c == '_' || c == '-' }

  predicate IsUpper(c: char) { 'A' <= c <= 'Z' }

  predicate IsLower(c: char) { 'a' <= c <= 'z' }

  predicate IsLetter(c: char) { IsUpper(c) || IsLower(c) }

  /** The upper-case form of a letter; an upper-case letter and any
      non-letter are kept as they are. */
  function Upper(c: char): (u: char)
    ensures IsLetter(c) ==> IsUpper(u)
    ensures IsUpper(c) || !IsLetter(c) ==> u == c
  {
    if IsLower(c) then (c as int - 'a' as int + 'A' as int) as char else c
  }

  /** The lower-case form of a letter; a lower-case letter and any
      non-letter are kept as they are. */
  function Lower(c: char): (l: char)
    ensures IsLetter(c) ==> IsLower(l)
    ensures IsLower(c) || !IsLetter(c) ==> l == c
  {
    if IsUpper(c) then (c as int - 'A' as int + 'a' as int) as char else c
  }

  predicate NoSeparator(w: string)
  {
    forall i :: 0 <= i < |w| ==> !IsSeparator(w[i])
  }

  predicate AllSeparators(s: string)
  {
    forall i :: 0 <= i < |s| ==> IsSeparator(s[i])
  }

  // ---------------------------------------------------------------------------
  // Splitting into words (the `re.findall` of the source)
  // ---------------------------------------------------------------------------

  function Flush(cur: string): seq<string>
  {
    if cur == [] then [] else [cur]
  }

  /** Reads `s` left to right; `cur` is the run of non-separators read so far.
      Started on a run without separators, every word it yields is non-empty
      and holds no separator. */
  function Split(s: string, cur: string): (r: seq<string>)
    ensures NoSeparator(cur) ==> forall k :: 0 <= k < |r| ==> r[k] != [] && NoSeparator(r[k])
  {
    if s == [] then Flush(cur)
    else if IsSeparator(s[0]) then Flush(cur) + Split(s[1..], [])
    else Split(s[1..], cur + [s[0]])
  }

  /** The maximal runs of non-separator characters of `s`, in order. Each match
      of the source's pattern `[^ _-]+[ _-]*` is one such run followed by the
      separators after it; those separators are not letters, so they add
      nothing to the word built from the match. */
  function Words(s: string): (r: seq<string>)
    ensures forall k :: 0 <= k < |r| ==> r[k] != [] && NoSeparator(r[k])
  {
    Split(s, [])
  }

  lemma {:induction false} SplitEmptyIff(s: string, cur: string)
    ensures Split(s, cur) == [] <==> cur == [] && AllSeparators(s)
  {
    if s != [] {
      if IsSeparator(s[0]) {
        SplitEmptyIff(s[1..], []);
        assert AllSeparators(s) <==> AllSeparators(s[1..]) by {
          if AllSeparators(s[1..]) {
            forall i | 0 <= i < |s| ensures IsSeparator(s[i]) {
              if i > 0 { assert s[i] == s[1..][i - 1]; }
            }
          }
        }
      } else {
        SplitEmptyIff(s[1..], cur + [s[0]]);
      }
    }
  }

  /** There are no words exactly when every character is a separator. */
  lemma WordsEmptyIff(s: string)
    ensures Words(s) == [] <==> AllSeparators(s)
  {
    SplitEmptyIff(s, []);
  }

  lemma {:induction false} SplitWord(w: string, cur: string)
    requires NoSeparator(w) && cur + w != []
    ensures Split(w, cur) == [cur + w]
  {
    if w == [] {
      assert cur + w == cur;
    } else {
      assert !IsSeparator(w[0]);
      assert NoSeparator(w[1..]) by {
        forall i | 0 <= i < |w| - 1 ensures !IsSeparator(w[1..][i]) {
          assert w[1..][i] == w[i + 1];
        }
      }
      assert cur + [w[0]] + w[1..] == cur + w;
      SplitWord(w[1..], cur + [w[0]]);
    }
  }

  /** A non-empty run without separators is one word. */
  lemma WordsOfRun(w: string)
    requires w != [] && NoSeparator(w)
    ensures Words(w) == [w]
  {
    SplitWord(w, []);
    assert [] + w == w;
  }

  lemma {:induction false} SplitAtSeparator(a: string, c: char, b: string, cur: string)
    requires IsSeparator(c)
    ensures Split(a + [c] + b, cur) == Split(a, cur) + Split(b, [])
  {
    var s := a + [c] + b;
    if a == [] {
      assert s[0] == c && s[1..] == b;
    } else {
      assert s[0] == a[0] && s[1..] == a[1..] + [c] + b;
      if IsSeparator(a[0]) {
        SplitAtSeparator(a[1..], c, b, []);
      } else {
        SplitAtSeparator(a[1..], c, b, cur + [a[0]]);
      }
    }
  }

  /** A separator ends one word and starts the next: together with WordsOfRun
      and `Words([]) == []` this pins Words down on every string. */
  lemma WordsAtSeparator(a: string, c: char, b: string)
    requires IsSeparator(c)
    ensures Words(a + [c] + b) == Words(a) + Words(b)
  {
    SplitAtSeparator(a, c, b, []);
  }

  /** `s` and `t` differ at most by one separator standing for another. */
  predicate SameUpToSeparators(s: string, t: string)
  {
    |s| == |t| && forall i :: 0 <= i < |s| ==> s[i] == t[i] || (IsSeparator(s[i]) && IsSeparator(t[i]))
  }

  lemma {:induction false} SplitInterchange(s: string, t: string, cur: string)
    requires SameUpToSeparators(s, t)
    ensures Split(s, cur) == Split(t, cur)
  {
    if s != [] {
      assert SameUpToSeparators(s[1..], t[1..]) by {
        forall i | 0 <= i < |s| - 1
          ensures s[1..][i] == t[1..][i] || (IsSeparator(s[1..][i]) && IsSeparator(t[1..][i]))
        {
          assert s[1..][i] == s[i + 1] && t[1..][i] == t[i + 1];
        }
      }
      if IsSeparator(s[0]) {
        SplitInterchange(s[1..], t[1..], []);
      } else {
        SplitInterchange(s[1..], t[1..], cur + [s[0]]);
      }
    }
  }

  // ---------------------------------------------------------------------------
  // Building the result
  // ---------------------------------------------------------------------------

  /** The letters of `w`, in order (the `isalpha` filter). */
  function Letters(w: string): (l: string)
    ensures |l| <= |w|
    ensures forall i :: 0 <= i < |l| ==> IsLetter(l[i])
  {
    if w == [] then []
    else Letters(w[..|w| - 1]) + (if IsLetter(w[|w| - 1]) then [w[|w| - 1]] else [])
  }

  /** First character upper case, the rest lower case; each position holds
      the same letter as before, only its case may change. */
  function TitleCase(l: string): (t: string)
    ensures |t| == |l|
    ensures forall i :: 0 <= i < |l| && IsLetter(l[i]) ==> if i == 0 then IsUpper(t[i]) else IsLower(t[i])
    ensures forall i :: 0 <= i < |l| ==> Lower(t[i]) == Lower(l[i])
  {
    var t := seq(|l|, i requires 0 <= i < |l| => if i == 0 then Upper(l[i]) else Lower(l[i]));
    assert forall i :: 0 <= i < |l| ==> Lower(t[i]) == Lower(l[i]) by {
      forall i | 0 <= i < |l| ensures Lower(t[i]) == Lower(l[i]) {
        CaseRoundTrip(l[i]);
      }
    }
    t
  }

  /** The string the source accumulates before stripping it: every word
      title-cased and followed by one space, also a word left without letters. */
  function Render(words: seq<string>): (r: string)
    ensures r == [] <==> words == []
    ensures forall i :: 0 <= i < |r| ==> r[i] == ' ' || IsLetter(r[i])
  {
    if words == [] then []
    else
      var prefix, word := Render(words[..|words| - 1]), TitleCase(Letters(words[|words| - 1]));
      assert forall i :: 0 <= i < |word| ==> IsLetter(word[i]);
      var r := prefix + word + " ";
      assert forall i :: 0 <= i < |r| ==> r[i] == ' ' || IsLetter(r[i]) by {
        forall i | 0 <= i < |r| ensures r[i] == ' ' || IsLetter(r[i]) {
          if i < |prefix| {
            assert r[i] == prefix[i];
          } else if i < |prefix| + |word| {
            assert r[i] == word[i - |prefix|];
          }
        }
      }
      r
  }

  function TrimLeft(s: string): (r: string)
    ensures |r| <= |s| && r == s[|s| - |r|..]
    ensures forall i :: 0 <= i < |s| - |r| ==> s[i] == ' '
    ensures r == [] || r[0] != ' '
  {
    if s != [] && s[0] == ' ' then TrimLeft(s[1..]) else s
  }

  function TrimRight(s: string): (r: string)
    ensures |r| <= |s| && r == s[..|r|]
    ensures forall i :: |r| <= i < |s| ==> s[i] == ' '
    ensures r == [] || r[|r| - 1] != ' '
  {
    if s != [] && s[|s| - 1] == ' ' then TrimRight(s[..|s| - 1]) else s
  }

  /** `r` is the part of `s` that starts at `lo`, and everything of `s`
      around it is a space. */
  predicate Trimmed(s: string, lo: nat, r: string)
  {
    && lo + |r| <= |s|
    && (forall i :: 0 <= i < |r| ==> r[i] == s[lo + i])
    && (forall i :: 0 <= i < lo ==> s[i] == ' ')
    && (forall i :: lo + |r| <= i < |s| ==> s[i] == ' ')
  }

  /** A suffix of `s` after only spaces, cut back to a prefix of itself
      before only spaces, is the middle of `s`. */
  lemma TrimsTrimmed(s: string, left: string, r: string)
    requires |left| <= |s| && left == s[|s| - |left|..]
    requires forall i :: 0 <= i < |s| - |left| ==> s[i] == ' '
    requires |r| <= |left| && r == left[..|r|]
    requires forall i :: |r| <= i < |left| ==> left[i] == ' '
    ensures Trimmed(s, |s| - |left|, r)
  {
    var lo := |s| - |left|;
    forall i | 0 <= i < |r| ensures r[i] == s[lo + i] {
      assert r[i] == left[i];
    }
    forall i | lo + |r| <= i < |s| ensures s[i] == ' ' {
      assert s[i] == left[i - lo];
    }
  }

  /** Python's `str.strip` on a string of letters and spaces: the part of
      `s` between its leading and its trailing spaces. */
  function Strip(s: string): (r: string)
    ensures exists lo: nat :: Trimmed(s, lo, r)
    ensures r == [] || (r[0] != ' ' && r[|r| - 1] != ' ')
  {
    TrimsTrimmed(s, TrimLeft(s), TrimRight(TrimLeft(s)));
    TrimRight(TrimLeft(s))
  }

  /** What is left after trimming holds only characters of what was trimmed. */
  lemma TrimmedLettersOrSpaces(s: string, r: string)
    requires exists lo: nat :: Trimmed(s, lo, r)
    requires forall i :: 0 <= i < |s| ==> s[i] == ' ' || IsLetter(s[i])
    ensures forall i :: 0 <= i < |r| ==> r[i] == ' ' || IsLetter(r[i])
  {
    var lo: nat :| Trimmed(s, lo, r);
    forall i | 0 <= i < |r| ensures r[i] == ' ' || IsLetter(r[i]) {
      assert r[i] == s[lo + i];
    }
  }

  /** The specification of `parse_handwriting`: no word at all gives None,
      otherwise the stripped rendering of the words. */
  function Normalize(s: string): (r: Option<string>)
    ensures r.Some? ==> forall i :: 0 <= i < |r.value| ==> r.value[i] == ' ' || IsLetter(r.value[i])
    ensures r.Some? ==> r.value == [] || (r.value[0] != ' ' && r.value[|r.value| - 1] != ' ')
  {
    var words := Words(s);
    if words == [] then None
    else
      var rendered := Render(words);
      TrimmedLettersOrSpaces(rendered, Strip(rendered));
      Some(Strip(rendered))
  }

  // ---------------------------------------------------------------------------
  // The imperative routine
  // ---------------------------------------------------------------------------

  lemma TitleCaseSnoc(l: string, c: char)
    ensures TitleCase(l + [c]) == TitleCase(l) + [if l == [] then Upper(c) else Lower(c)]
  {
  }

  /** One more character of a word: a letter is appended to the title-cased
      word, upper case if it is the word's first letter; anything else is
      dropped. */
  lemma LetterStep(w: string, j: nat)
    requires j < |w|
    ensures TitleCase(Letters(w[..j + 1])) ==
            if !IsLetter(w[j]) then TitleCase(Letters(w[..j]))
            else TitleCase(Letters(w[..j])) + [if Letters(w[..j]) == [] then Upper(w[j]) else Lower(w[j])]
  {
    assert w[..j + 1][..j] == w[..j];
    if IsLetter(w[j]) {
      TitleCaseSnoc(Letters(w[..j]), w[j]);
    }
  }

  /** One more word: its title-cased letters and one space are appended. */
  lemma RenderStep(words: seq<string>, i: nat)
    requires i < |words|
    ensures Render(words[..i + 1]) == Render(words[..i]) + TitleCase(Letters(words[i])) + " "
  {
    assert words[..i + 1][..i] == words[..i];
  }

  /** `parse_handwriting`: the nested loops that build each word letter by
      letter and append it, followed by one space, to the result. */
  method ParseHandwriting(recipeName: string) returns (r: Option<string>)
    ensures r == Normalize(recipeName)
  {
    var result := "";
    var words := Words(recipeName);
    for i := 0 to |words|
      invariant result == Render(words[..i])
    {
      var word := words[i];
      var resWord := "";
      for j := 0 to |word|
        invariant resWord == TitleCase(Letters(word[..j]))
      {
        var letter := word[j];
        LetterStep(word, j);
        if IsLetter(letter) {
          if |resWord| == 0 {
            resWord := resWord + [Upper(letter)];
          } else {
            resWord := resWord + [Lower(letter)];
          }
        }
      }
      assert word[..|word|] == word;
      RenderStep(words, i);
      result := result + resWord + " ";
    }
    assert words[..|words|] == words;
    if |result| == 0 {
      r := None;
    } else {
      r := Some(Strip(result));
    }
  }

  // ---------------------------------------------------------------------------
  // Properties of the result
  // ---------------------------------------------------------------------------

  /** Only letters and spaces; a letter at the start or after a space is upper
      case, every other letter lower case. */
  predicate WellCased(r: string)
  {
    forall i :: 0 <= i < |r| ==> CasedAt(r, i)
  }

  predicate CasedAt(r: string, i: nat)
    requires i < |r|
  {
    r[i] == ' ' || (if i == 0 || r[i - 1] == ' ' then IsUpper(r[i]) else IsLower(r[i]))
  }

  lemma WellCasedAppend(a: string, b: string)
    requires WellCased(a) && WellCased(b)
    requires a == [] || a[|a| - 1] == ' '
    ensures WellCased(a + b)
  {
    var ab := a + b;
    forall i | 0 <= i < |ab|
      ensures CasedAt(ab, i)
    {
      if i < |a| {
        assert ab[i] == a[i];
        if i > 0 { assert ab[i - 1] == a[i - 1]; }
        assert CasedAt(a, i);
      } else {
        var j := i - |a|;
        assert ab[i] == b[j];
        if j > 0 { assert ab[i - 1] == b[j - 1]; }
        assert CasedAt(b, j);
      }
    }
  }

  lemma {:induction false} RenderWellCased(words: seq<string>)
    ensures WellCased(Render(words))
    ensures Render(words) == [] || Render(words)[|Render(words)| - 1] == ' '
  {
    if words != [] {
      var prefix := words[..|words| - 1];
      RenderWellCased(prefix);
      var t := TitleCase(Letters(words[|words| - 1]));
      assert WellCased(t + " ") by {
        var u := t + " ";
        forall i | 0 <= i < |u|
          ensures CasedAt(u, i)
        {
          if i > 0 && i < |t| { assert u[i - 1] == t[i - 1]; }
        }
      }
      WellCasedAppend(Render(prefix), t + " ");
      assert Render(words) == Render(prefix) + (t + " ");
    }
  }

  /** The result holds only letters and spaces, has no leading or trailing
      space, and each word starts upper case and goes on lower case. */
  lemma NormalizeWellCased(s: string)
    ensures Normalize(s).Some? ==>
      var r := Normalize(s).value;
      WellCased(r) && (r != [] ==> r[0] != ' ' && r[|r| - 1] != ' ')
  {
    var words := Words(s);
    if words != [] {
      RenderWellCased(words);
      StripWellCased(Render(words));
    }
  }

  lemma StripWellCased(s: string)
    requires WellCased(s)
    ensures WellCased(Strip(s))
  {
    var r := Strip(s);
    var lo: nat :| Trimmed(s, lo, r);
    TrimmedWellCased(s, lo, r);
  }

  /** A middle part cut out after spaces keeps the casing of the whole. */
  lemma TrimmedWellCased(s: string, lo: nat, r: string)
    requires WellCased(s) && Trimmed(s, lo, r)
    ensures WellCased(r)
  {
    forall i | 0 <= i < |r|
      ensures CasedAt(r, i)
    {
      assert r[i] == s[lo + i];
      if i > 0 {
        assert r[i - 1] == s[lo + i - 1];
      } else if lo > 0 {
        assert s[lo - 1] == ' ';
      }
      assert CasedAt(s, lo + i);
    }
  }

  /** None exactly when the input holds nothing but separators. */
  lemma NormalizeNoneIff(s: string)
    ensures Normalize(s) == None <==> AllSeparators(s)
  {
    WordsEmptyIff(s);
  }

  /** `-`, `_` and space are interchangeable. */
  lemma SeparatorsInterchangeable(s: string, t: string)
    requires SameUpToSeparators(s, t)
    ensures Normalize(s) == Normalize(t)
  {
    SplitInterchange(s, t, []);
  }

  // ---------------------------------------------------------------------------
  // The letters survive, up to case
  // ---------------------------------------------------------------------------

  /** Changing the case of a character and changing it back gives the same
      character in that case. */
  lemma CaseRoundTrip(c: char)
    ensures Lower(Upper(c)) == Lower(c) && Upper(Lower(c)) == Upper(c)
  {
  }

  /** A single character is kept exactly when it is a letter. */
  lemma LettersOfChar(c: char)
    ensures Letters([c]) == if IsLetter(c) then [c] else []
  {
    assert [c][..0] == [];
  }

  lemma DropLastOfAppend<T>(a: seq<T>, b: seq<T>)
    requires b != []
    ensures (a + b)[..|a + b| - 1] == a + b[..|b| - 1]
    ensures (a + b)[|a + b| - 1] == b[|b| - 1]
  {
  }

  lemma AppendAssociative<T>(a: seq<T>, b: seq<T>, c: seq<T>)
    ensures (a + b) + c == a + (b + c)
  {
  }

  /** Filtering a concatenation filters each part. */
  lemma {:induction false} LettersAppend(a: string, b: string)
    ensures Letters(a + b) == Letters(a) + Letters(b)
  {
    if b == [] {
      assert a + b == a;
    } else {
      var c := b[|b| - 1];
      DropLastOfAppend(a, b);
      LettersAppend(a, b[..|b| - 1]);
      AppendAssociative(Letters(a), Letters(b[..|b| - 1]), if IsLetter(c) then [c] else []);
    }
  }

  /** Every character in lower case. */
  function LowerAll(s: string): (r: string)
    ensures |r| == |s| && forall i :: 0 <= i < |s| ==> r[i] == Lower(s[i])
  {
    seq(|s|, i requires 0 <= i < |s| => Lower(s[i]))
  }

  lemma LowerAllAppend(a: string, b: string)
    ensures LowerAll(a + b) == LowerAll(a) + LowerAll(b)
  {
    var l, r := LowerAll(a + b), LowerAll(a) + LowerAll(b);
    forall i | 0 <= i < |l| ensures l[i] == r[i] {
      if i < |a| {
        assert (a + b)[i] == a[i];
      } else {
        assert (a + b)[i] == b[i - |a|];
      }
    }
  }

  /** The letters of every word, in order. */
  function WordLetters(words: seq<string>): string
  {
    if words == [] then [] else WordLetters(words[..|words| - 1]) + Letters(words[|words| - 1])
  }

  lemma {:induction false} WordLettersAppend(a: seq<string>, b: seq<string>)
    ensures WordLetters(a + b) == WordLetters(a) + WordLetters(b)
  {
    if b == [] {
      assert a + b == a;
    } else {
      DropLastOfAppend(a, b);
      WordLettersAppend(a, b[..|b| - 1]);
      AppendAssociative(WordLetters(a), WordLetters(b[..|b| - 1]), Letters(b[|b| - 1]));
    }
  }

  lemma FlushLetters(cur: string)
    ensures WordLetters(Flush(cur)) == Letters(cur)
  {
    if cur != [] {
      assert [cur][..0] == [];
    }
  }

  /** A non-letter between two strings leaves only their letters. */
  lemma LettersAcross(cur: string, c: char, rest: string)
    requires !IsLetter(c)
    ensures Letters(cur + ([c] + rest)) == Letters(cur) + Letters(rest)
  {
    AppendAssociative(cur, [c], rest);
    LettersAppend(cur + [c], rest);
    LettersAppend(cur, [c]);
    LettersOfChar(c);
  }

  /** Splitting into words keeps every letter, in order: what it drops
      between the words are separators, and no separator is a letter. */
  lemma {:induction false} SplitLetters(s: string, cur: string)
    ensures WordLetters(Split(s, cur)) == Letters(cur + s)
    decreases s, 1
  {
    if s == [] {
      FlushLetters(cur);
      assert cur + s == cur;
    } else if IsSeparator(s[0]) {
      SplitLettersAtSeparator(s, cur);
    } else {
      SplitLetters(s[1..], cur + [s[0]]);
      assert (cur + [s[0]]) + s[1..] == cur + s;
    }
  }

  lemma {:induction false} SplitLettersAtSeparator(s: string, cur: string)
    requires s != [] && IsSeparator(s[0])
    ensures WordLetters(Split(s, cur)) == Letters(cur + s)
    decreases s, 0
  {
    SplitLetters(s[1..], []);
    JoinLetters(cur, s[0], s[1..], Split(s[1..], []));
    assert s == [s[0]] + s[1..];
  }

  /** A word ended by a non-letter, followed by the words of the rest. */
  lemma JoinLetters(cur: string, c: char, rest: string, words: seq<string>)
    requires !IsLetter(c) && WordLetters(words) == Letters([] + rest)
    ensures WordLetters(Flush(cur) + words) == Letters(cur + ([c] + rest))
  {
    WordLettersAppend(Flush(cur), words);
    FlushLetters(cur);
    assert [] + rest == rest;
    LettersAcross(cur, c, rest);
  }

  /** Rendering keeps every word's letters, in order and up to case; the
      spaces it adds are not letters. */
  lemma {:induction false} RenderLetters(words: seq<string>)
    ensures LowerAll(Letters(Render(words))) == LowerAll(WordLetters(words))
  {
    if words != [] {
      var prefix := words[..|words| - 1];
      var l := Letters(words[|words| - 1]);
      var t := TitleCase(l);
      RenderLetters(prefix);
      assert Render(words) == Render(prefix) + t + " ";
      LettersAppend(Render(prefix) + t, " ");
      LettersAppend(Render(prefix), t);
      LettersOfChar(' ');
      LettersOfLetters(t);
      LowerAllAppend(Letters(Render(prefix)), t);
      LowerAllAppend(WordLetters(prefix), l);
      assert LowerAll(t) == LowerAll(l);
    }
  }

  lemma {:induction false} TrimLeftLetters(s: string)
    ensures Letters(TrimLeft(s)) == Letters(s)
  {
    if s != [] && s[0] == ' ' {
      TrimLeftLetters(s[1..]);
      LettersAfterSpace(s);
    }
  }

  lemma LettersAfterSpace(s: string)
    requires s != [] && s[0] == ' '
    ensures Letters(s) == Letters(s[1..])
  {
    assert s == [s[0]] + s[1..];
    LettersAppend([s[0]], s[1..]);
    LettersOfChar(s[0]);
  }

  lemma {:induction false} TrimRightLetters(s: string)
    ensures Letters(TrimRight(s)) == Letters(s)
  {
    if s != [] && s[|s| - 1] == ' ' {
      TrimRightLetters(s[..|s| - 1]);
    }
  }

  /** Stripping removes only spaces, so it keeps every letter. */
  lemma StripLetters(s: string)
    ensures Letters(Strip(s)) == Letters(s)
  {
    TrimLeftLetters(s);
    TrimRightLetters(TrimLeft(s));
  }

  /** The name holds the input's letters, in order and up to case: the
      normaliser invents, drops and reorders no letter. */
  lemma NormalizeKeepsLetters(s: string)
    ensures Normalize(s).Some? ==> LowerAll(Letters(Normalize(s).value)) == LowerAll(Letters(s))
  {
    var words := Words(s);
    if words != [] {
      StripLetters(Render(words));
      RenderLetters(words);
      SplitLetters(s, []);
      assert [] + s == s;
    }
  }

  // ---------------------------------------------------------------------------
  // Worked examples
  // ---------------------------------------------------------------------------

  lemma {:induction false} LettersOfLetters(w: string)
    requires forall i :: 0 <= i < |w| ==> IsLetter(w[i])
    ensures Letters(w) == w
  {
    if w != [] {
      LettersOfLetters(w[..|w| - 1]);
    }
  }

  lemma PieWords()
    ensures Words("pie ") == ["pie"]
  {
    WordsAtSeparator("pie", ' ', "");
    assert "pie" + [' '] + "" == "pie ";
    WordsOfRun("pie");
  }

  lemma RhubarbRun()
    ensures Words("rhubarb") == ["rhubarb"]
  {
    WordsOfRun("rhubarb");
  }

  lemma RhubarbPieTailWords()
    ensures Words("rhubarb-pie ") == ["rhubarb", "pie"]
  {
    WordsAtSeparator("rhubarb", '-', "pie ");
    assert "rhubarb" + ['-'] + "pie " == "rhubarb-pie ";
    RhubarbRun();
    PieWords();
  }

  lemma RhubarbPieWords()
    ensures Words("my_rhubarb-pie ") == ["my", "rhubarb", "pie"]
  {
    WordsAtSeparator("my", '_', "rhubarb-pie ");
    assert "my" + ['_'] + "rhubarb-pie " == "my_rhubarb-pie ";
    WordsOfRun("my");
    RhubarbPieTailWords();
  }

  lemma RenderThree(a: string, b: string, c: string)
    ensures Render([a, b, c]) ==
            TitleCase(Letters(a)) + " " + TitleCase(Letters(b)) + " " + TitleCase(Letters(c)) + " "
  {
    var t := [a, b, c];
    assert t[..2] == [a, b] && t[2] == c;
    assert [a, b][..1] == [a] && [a, b][1] == b;
    assert [a][..0] == [] && [a][0] == a;
    assert Render([a]) == TitleCase(Letters(a)) + " ";
  }

  /** Title-casing a lower-case word upper-cases its first letter only. */
  lemma TitleCaseOfLower(l: string)
    requires |l| > 0 && forall i :: 0 <= i < |l| ==> IsLower(l[i])
    ensures TitleCase(l) == [Upper(l[0])] + l[1..]
  {
    var t := TitleCase(l);
    forall i | 0 <= i < |l| ensures t[i] == ([Upper(l[0])] + l[1..])[i] {
      if i > 0 {
        assert l[1..][i - 1] == l[i];
      }
    }
  }

  lemma RhubarbTitleCase()
    ensures TitleCase(Letters("rhubarb")) == "Rhubarb"
  {
    LettersOfLetters("rhubarb");
    TitleCaseOfLower("rhubarb");
    assert Upper('r') == 'R' && "rhubarb"[1..] == "hubarb";
  }

  lemma MyTitleCase()
    ensures TitleCase(Letters("my")) == "My"
  {
    LettersOfLetters("my");
    TitleCaseOfLower("my");
    assert Upper('m') == 'M' && "my"[1..] == "y";
  }

  lemma PieTitleCase()
    ensures TitleCase(Letters("pie")) == "Pie"
  {
    LettersOfLetters("pie");
    TitleCaseOfLower("pie");
    assert Upper('p') == 'P' && "pie"[1..] == "ie";
  }

  lemma RhubarbPieJoined()
    ensures "My" + " " + "Rhubarb" + " " + "Pie" + " " == "My Rhubarb Pie "
  {
    assert ("My" + " " + "Rhubarb" + " ")[..2] == "My";
  }

  lemma RhubarbPieRendered()
    ensures Render(["my", "rhubarb", "pie"]) == "My Rhubarb Pie "
  {
    RenderThree("my", "rhubarb", "pie");
    MyTitleCase();
    RhubarbTitleCase();
    PieTitleCase();
    RhubarbPieJoined();
  }

  lemma RhubarbPieStripped()
    ensures Strip("My Rhubarb Pie ") == "My Rhubarb Pie"
  {
    assert TrimLeft("My Rhubarb Pie ") == "My Rhubarb Pie ";
    assert "My Rhubarb Pie "[..14] == "My Rhubarb Pie";
    assert TrimRight("My Rhubarb Pie ") == "My Rhubarb Pie";
  }

  lemma RhubarbPieExample()
    ensures Normalize("my_rhubarb-pie ") == Some("My Rhubarb Pie")
  {
    RhubarbPieWords();
    RhubarbPieRendered();
    RhubarbPieStripped();
  }

  /** A word left without letters still adds its space: the source answers
      with an empty name here, not with None. */
  lemma NoLettersExample()
    ensures Normalize("!!! ---") == Some("")
  {
    WordsAtSeparator("!!!", ' ', "---");
    assert "!!!" + [' '] + "---" == "!!! ---";
    WordsOfRun("!!!");
    WordsEmptyIff("---");
    assert Words("!!! ---") == ["!!!"];
    assert Letters("!!!") == [];
    assert Render(["!!!"]) == " ";
  }

  lemma DigitDropped()
    ensures Letters("c4ke") == "cke"
  {
    assert "c4ke"[..3] == "c4k" && "c4k"[..2] == "c4" && "c4"[..1] == "c" && "c"[..0] == [];
    assert Letters("c") == "c";
    assert Letters("c4") == "c";
    assert Letters("c4k") == "ck";
  }

  /** Digits are dropped from inside a word. */
  lemma DigitsExample()
    ensures Normalize("c4ke") == Some("Cke")
  {
    WordsOfRun("c4ke");
    DigitDropped();
    assert TitleCase("cke") == "Cke";
    assert Render(["c4ke"]) == "Cke " by {
      assert ["c4ke"][..0] == [];
    }
    assert TrimLeft("Cke ") == "Cke ";
    assert TrimRight("Cke ") == "Cke";
  }

  /** A single lower-case letter title-cases to its upper-case form. */
  lemma SingleLetterTitleCase(c: char)
    requires IsLower(c)
    ensures TitleCase(Letters([c])) == [Upper(c)]
  {
    assert [c][..0] == [];
  }

  lemma DigitWordRendered()
    ensures Render(["a", "1", "b"]) == "A  B "
  {
    RenderThree("a", "1", "b");
    assert Letters("1") == [] by { assert "1"[..0] == []; }
    SingleLetterTitleCase('a');
    SingleLetterTitleCase('b');
    assert "A" + " " + [] + " " + "B" + " " == "A  B ";
  }

  lemma DigitWordTailSplit()
    ensures Words("1 b") == ["1", "b"]
  {
    WordsAtSeparator("1", ' ', "b");
    assert "1" + [' '] + "b" == "1 b";
    WordsOfRun("1");
    WordsOfRun("b");
  }

  lemma DigitWordSplit()
    ensures Words("a 1 b") == ["a", "1", "b"]
  {
    WordsAtSeparator("a", ' ', "1 b");
    assert "a" + [' '] + "1 b" == "a 1 b";
    WordsOfRun("a");
    DigitWordTailSplit();
  }

  lemma DigitWordStripped()
    ensures Strip("A  B ") == "A  B"
  {
    assert TrimLeft("A  B ") == "A  B ";
    assert "A  B "[..4] == "A  B";
    assert TrimRight("A  B ") == "A  B";
  }

  /** A word of digits still adds its space, so two spaces can stand between
      words. */
  lemma DigitWordExample()
    ensures Normalize("a 1 b") == Some("A  B")
  {
    DigitWordSplit();
    DigitWordRendered();
    DigitWordStripped();
  }
}
