/**
  The four Guava CaseFormat conventions JavaCase converts between, and the conversion
  `from.to(target, s)`. Guava's code is not part of this model; the conversion is
  written after its documented algorithm: split `s` into words at the source
  format's boundaries (an upper-case letter for the camel formats, `_` for the
  underscore formats), normalise the first word and every later word for the target
  format, and join them with the target's separator.
*/
module CaseFormat {
  import opened Ascii

  datatype Format = LowerCamel | UpperCamel | LowerUnderscore | UpperUnderscore

  predicate IsCamel(f: Format) { f == LowerCamel || f == UpperCamel }

  function Separator(f: Format): string
  {
    if IsCamel(f) then "" else "_"
  }

  /** Guava's firstCharOnlyToUpper. */
  function FirstCharOnlyToUpper(w: string): string
  {
    if w == [] then [] else [ToUpper(w[0])] + Lower(w[1..])
  }

  function NormalizeWord(f: Format, w: string): string
  {
    match f
    case LowerCamel => FirstCharOnlyToUpper(w)
    case UpperCamel => FirstCharOnlyToUpper(w)
    case LowerUnderscore => Lower(w)
    case UpperUnderscore => Upper(w)
  }

  function NormalizeFirstWord(f: Format, w: string): string
  {
    if f == LowerCamel then Lower(w) else NormalizeWord(f, w)
  }

  /** Words of an underscore-separated string: every `_` ends a word, empty words included. */
  function UnderscoreWords(s: string): (ws: seq<string>)
    ensures |ws| >= 1
  {
    if s == [] then [[]]
    else
      var rest := UnderscoreWords(s[1..]);
      if s[0] == '_' then [[]] + rest else [[s[0]] + rest[0]] + rest[1..]
  }

  /** The characters of a camel-case tail before its first upper-case letter, and the
      words that follow, each starting at an upper-case letter. */
  datatype Split = Split(head: string, words: seq<string>)

  /** Puts `c` in front of the split of the characters after it. */
  function Prepend(c: char, r: Split): Split
  {
    if IsUpper(c) then Split([], [[c] + r.head] + r.words) else Split([c] + r.head, r.words)
  }

  function SplitBeforeUpper(t: string): Split
  {
    if t == [] then Split([], []) else Prepend(t[0], SplitBeforeUpper(t[1..]))
  }

  /** Words of a camel-case string. The first character always belongs to the first
      word: Guava discards the empty word a boundary at position 0 would start. */
  function CamelWords(s: string): (ws: seq<string>)
    ensures |ws| >= 1
  {
    if s == [] then [[]]
    else [[s[0]] + SplitBeforeUpper(s[1..]).head] + SplitBeforeUpper(s[1..]).words
  }

  function Words(f: Format, s: string): (ws: seq<string>)
    ensures |ws| >= 1
  {
    if IsCamel(f) then CamelWords(s) else UnderscoreWords(s)
  }

  /** Every later word, each preceded by the target separator. */
  function JoinRest(f: Format, ws: seq<string>): string
  {
    if ws == [] then [] else Separator(f) + NormalizeWord(f, ws[0]) + JoinRest(f, ws[1..])
  }

  function Join(f: Format, ws: seq<string>): string
    requires |ws| >= 1
  {
    NormalizeFirstWord(f, ws[0]) + JoinRest(f, ws[1..])
  }

  /** `from.to(target, s)`, with Guava's shortcuts between the two underscore formats. */
  function Convert(from: Format, target: Format, s: string): string
  {
    if from == target then s
    else if from == LowerUnderscore && target == UpperUnderscore then Upper(s)
    else if from == UpperUnderscore && target == LowerUnderscore then Lower(s)
    else Join(target, Words(from, s))
  }

  // ---------------------------------------------------------------------------
  // Splitting and joining

  predicate NoUnderscore(s: string) { forall i :: 0 <= i < |s| ==> s[i] != '_' }

  predicate AllWithoutUnderscore(ws: seq<string>)
  {
    forall k :: 0 <= k < |ws| ==> NoUnderscore(ws[k])
  }

  /** Joining the underscore words back with `_` gives the string split. */
  lemma {:induction false} UnderscoreWordsJoin(s: string)
    ensures var ws := UnderscoreWords(s); ws[0] + JoinRestRaw(ws[1..]) == s
    ensures AllWithoutUnderscore(UnderscoreWords(s))
  {
    if s != [] {
      UnderscoreWordsJoin(s[1..]);
      var rest := UnderscoreWords(s[1..]);
      if s[0] == '_' {
        assert UnderscoreWords(s)[1..] == rest;
        assert JoinRestRaw(rest) == "_" + rest[0] + JoinRestRaw(rest[1..]);
      } else {
        assert UnderscoreWords(s)[1..] == rest[1..];
      }
      assert s == [s[0]] + s[1..];
    }
  }

  /** The plain `_`-join of later words (no normalisation). */
  function JoinRestRaw(ws: seq<string>): string
  {
    if ws == [] then [] else "_" + ws[0] + JoinRestRaw(ws[1..])
  }

  // ---------------------------------------------------------------------------
  // Character-by-character reference definitions of the conversions JavaCase uses

  /** An underscore-separated string in camel case: underscores dropped, the first
      character of a word upper-cased when `capitalize` holds (it does after every
      `_`), every other character lower-cased. */
  function CamelFromUnderscores(t: string, capitalize: bool): string
  {
    if t == [] then []
    else if t[0] == '_' then CamelFromUnderscores(t[1..], true)
    else [if capitalize then ToUpper(t[0]) else ToLower(t[0])] + CamelFromUnderscores(t[1..], false)
  }

  /** The tail of a camel-case string in upper underscore case: `_` inserted before
      every upper-case letter, every other character upper-cased. */
  function UnderscoresFromCamel(t: string): string
  {
    if t == [] then []
    else if IsUpper(t[0]) then "_" + [t[0]] + UnderscoresFromCamel(t[1..])
    else [ToUpper(t[0])] + UnderscoresFromCamel(t[1..])
  }

  predicate NoUpper(s: string) { forall i :: 0 <= i < |s| ==> !IsUpper(s[i]) }

  lemma {:induction false} LowerIdentity(s: string)
    requires NoUpper(s)
    ensures Lower(s) == s
  {
    if s != [] {
      LowerIdentity(s[1..]);
      assert s == [s[0]] + s[1..];
    }
  }

  /** One step of JoinRest. */
  lemma JoinRestCons(f: Format, w: string, ws: seq<string>)
    ensures JoinRest(f, [w] + ws) == Separator(f) + NormalizeWord(f, w) + JoinRest(f, ws)
  {
    assert ([w] + ws)[1..] == ws;
  }

  /** A word that starts with a capital and has no other capital is already normalised
      for a camel target. */
  lemma CamelNormalized(f: Format, c: char, h: string)
    requires IsCamel(f) && IsUpper(c) && NoUpper(h)
    ensures NormalizeWord(f, [c] + h) == [c] + h
  {
    var w := [c] + h;
    assert w[1..] == h;
    LowerIdentity(h);
  }

  /** The head of a camel split has no capital. */
  lemma {:induction false} SplitHeadNoUpper(t: string)
    ensures NoUpper(SplitBeforeUpper(t).head)
  {
    if t != [] {
      SplitHeadNoUpper(t[1..]);
    }
  }

  /** Normalising the later camel words for a camel target leaves them as they are. */
  lemma {:induction false} SplitBeforeUpperCamel(f: Format, t: string)
    requires IsCamel(f)
    ensures SplitBeforeUpper(t).head + JoinRest(f, SplitBeforeUpper(t).words) == t
  {
    if t != [] {
      SplitBeforeUpperCamel(f, t[1..]);
      SplitHeadNoUpper(t[1..]);
      SplitBeforeUpperCamelStep(f, t[0], t[1..]);
      assert t == [t[0]] + t[1..];
    }
  }

  lemma SplitBeforeUpperCamelStep(f: Format, c: char, t: string)
    requires IsCamel(f) && NoUpper(SplitBeforeUpper(t).head)
    requires SplitBeforeUpper(t).head + JoinRest(f, SplitBeforeUpper(t).words) == t
    ensures Prepend(c, SplitBeforeUpper(t)).head + JoinRest(f, Prepend(c, SplitBeforeUpper(t)).words) == [c] + t
  {
    PrependCamel(f, c, SplitBeforeUpper(t), t);
  }

  lemma PrependCamel(f: Format, c: char, r: Split, t: string)
    requires IsCamel(f) && NoUpper(r.head) && r.head + JoinRest(f, r.words) == t
    ensures Prepend(c, r).head + JoinRest(f, Prepend(c, r).words) == [c] + t
  {
    var w := [c] + r.head;
    AppendAssoc([c], r.head, JoinRest(f, r.words));
    if IsUpper(c) {
      CamelNormalized(f, c, r.head);
      JoinRestCons(f, w, r.words);
      EmptySeparator(f, w + JoinRest(f, r.words));
    }
  }

  /** The separator of a camel target adds nothing. */
  lemma EmptySeparator(f: Format, x: string)
    requires IsCamel(f)
    ensures Separator(f) + x == x && [] + x == x
  {
  }

  /** The join of a first word and the words after it. */
  lemma JoinCons(f: Format, w: string, ws: seq<string>)
    ensures Join(f, [w] + ws) == NormalizeFirstWord(f, w) + JoinRest(f, ws)
  {
    assert ([w] + ws)[0] == w && ([w] + ws)[1..] == ws;
  }

  /** The camel words of a non-empty string: its first character with the head of the
      split of the rest, then the rest's words. */
  lemma CamelWordsCons(from: Format, s: string)
    requires IsCamel(from) && s != []
    ensures Words(from, s) == [[s[0]] + SplitBeforeUpper(s[1..]).head] + SplitBeforeUpper(s[1..]).words
  {
  }

  /** Camel to camel changes the case of the first character and nothing else. */
  lemma CamelToCamel(from: Format, target: Format, s: string)
    requires IsCamel(from) && IsCamel(target) && s != []
    ensures Join(target, Words(from, s)) == [if target == UpperCamel then ToUpper(s[0]) else ToLower(s[0])] + s[1..]
  {
    var r := SplitBeforeUpper(s[1..]);
    var x := if target == UpperCamel then ToUpper(s[0]) else ToLower(s[0]);
    CamelWordsCons(from, s);
    JoinCons(target, [s[0]] + r.head, r.words);
    SplitHeadNoUpper(s[1..]);
    CamelFirstWord(target, s[0], r.head);
    SplitBeforeUpperCamel(target, s[1..]);
    AppendAssoc([x], r.head, JoinRest(target, r.words));
  }

  lemma CamelFirstWord(f: Format, c: char, h: string)
    requires IsCamel(f) && NoUpper(h)
    ensures NormalizeFirstWord(f, [c] + h) == [if f == UpperCamel then ToUpper(c) else ToLower(c)] + h
  {
    LowerIdentity(h);
    assert ([c] + h)[1..] == h;
    LowerAppend([c], h);
  }

  lemma {:induction false} SplitBeforeUpperUnderscores(t: string)
    ensures Upper(SplitBeforeUpper(t).head) + JoinRest(UpperUnderscore, SplitBeforeUpper(t).words) == UnderscoresFromCamel(t)
  {
    if t != [] {
      SplitBeforeUpperUnderscores(t[1..]);
      var r := SplitBeforeUpper(t[1..]);
      UpperAppend([t[0]], r.head);
      if IsUpper(t[0]) {
        JoinRestCons(UpperUnderscore, [t[0]] + r.head, r.words);
      }
    }
  }

  /** Camel to upper underscore: `_` before every later capital, all upper-cased. */
  lemma CamelToUpperUnderscore(from: Format, s: string)
    requires IsCamel(from) && s != []
    ensures Join(UpperUnderscore, Words(from, s)) == [ToUpper(s[0])] + UnderscoresFromCamel(s[1..])
  {
    var r := SplitBeforeUpper(s[1..]);
    CamelWordsCons(from, s);
    JoinCons(UpperUnderscore, [s[0]] + r.head, r.words);
    UpperCons(s[0], r.head);
    SplitBeforeUpperUnderscores(s[1..]);
    AppendAssoc([ToUpper(s[0])], Upper(r.head), JoinRest(UpperUnderscore, r.words));
  }

  /** Both ways an underscore string is joined for a camel target: with its first
      word capitalised and without. */
  predicate CamelJoins(f: Format, s: string)
    requires IsCamel(f)
  {
    var ws := UnderscoreWords(s);
    NormalizeWord(f, ws[0]) + JoinRest(f, ws[1..]) == CamelFromUnderscores(s, true) &&
    Lower(ws[0]) + JoinRest(f, ws[1..]) == CamelFromUnderscores(s, false)
  }

  lemma {:induction false} UnderscoreWordsCamel(f: Format, s: string)
    requires IsCamel(f)
    ensures NormalizeWord(f, UnderscoreWords(s)[0]) + JoinRest(f, UnderscoreWords(s)[1..]) == CamelFromUnderscores(s, true)
    ensures Lower(UnderscoreWords(s)[0]) + JoinRest(f, UnderscoreWords(s)[1..]) == CamelFromUnderscores(s, false)
  {
    if s != [] {
      UnderscoreWordsCamel(f, s[1..]);
      assert CamelJoins(f, s[1..]);
      if s[0] == '_' {
        UnderscoreCamelSeparator(f, s);
      } else {
        UnderscoreCamelLetter(f, s);
      }
      assert CamelJoins(f, s);
    }
  }

  /** The underscore words of a non-empty string, from those of its tail. */
  lemma UnderscoreWordsCons(s: string)
    requires s != []
    ensures s[0] == '_' ==> UnderscoreWords(s)[0] == [] && UnderscoreWords(s)[1..] == UnderscoreWords(s[1..])
    ensures s[0] != '_' ==>
      UnderscoreWords(s)[0] == [s[0]] + UnderscoreWords(s[1..])[0] &&
      UnderscoreWords(s)[1..] == UnderscoreWords(s[1..])[1..]
  {
  }

  /** For a camel target the later words are joined without a separator. */
  lemma JoinRestCamel(f: Format, ws: seq<string>)
    requires IsCamel(f) && |ws| >= 1
    ensures JoinRest(f, ws) == NormalizeWord(f, ws[0]) + JoinRest(f, ws[1..])
  {
    assert Separator(f) == [];
  }

  /** A `_` ends the (empty) current word; the next word is capitalised. */
  lemma UnderscoreCamelSeparator(f: Format, s: string)
    requires IsCamel(f) && s != [] && s[0] == '_' && CamelJoins(f, s[1..])
    ensures CamelJoins(f, s)
  {
    var rest := UnderscoreWords(s[1..]);
    UnderscoreWordsCons(s);
    JoinRestCamel(f, rest);
    EmptyWordJoins(f, JoinRest(f, rest));
  }

  /** An empty first word contributes nothing, normalised or lower-cased. */
  lemma EmptyWordJoins(f: Format, j: string)
    requires IsCamel(f)
    ensures NormalizeWord(f, []) + j == j && Lower([]) + j == j
  {
  }

  /** A character other than `_` joins the first word. */
  lemma UnderscoreCamelLetter(f: Format, s: string)
    requires IsCamel(f) && s != [] && s[0] != '_' && CamelJoins(f, s[1..])
    ensures CamelJoins(f, s)
  {
    var rest := UnderscoreWords(s[1..]);
    var ws := UnderscoreWords(s);
    assert ws[0] == [s[0]] + rest[0];
    assert ws[1..] == rest[1..];
    CapitalizedLetterStep(f, s[0], rest[0], JoinRest(f, rest[1..]));
    LoweredLetterStep(s[0], rest[0], JoinRest(f, rest[1..]));
  }

  /** A character other than `_` starts a capitalised word. */
  lemma CapitalizedLetterStep(f: Format, c: char, w: string, tail: string)
    requires IsCamel(f)
    ensures NormalizeWord(f, [c] + w) + tail == [ToUpper(c)] + (Lower(w) + tail)
  {
    assert ([c] + w)[0] == c && ([c] + w)[1..] == w;
    AppendAssoc([ToUpper(c)], Lower(w), tail);
  }

  /** A character other than `_` starts a lower-cased word. */
  lemma LoweredLetterStep(c: char, w: string, tail: string)
    ensures Lower([c] + w) + tail == [ToLower(c)] + (Lower(w) + tail)
  {
    LowerCons(c, w);
    AppendAssoc([ToLower(c)], Lower(w), tail);
  }

  /** Underscore to camel: underscores dropped, every word after the first capitalised;
      the first word too for upper camel. */
  lemma UnderscoreToCamel(from: Format, target: Format, s: string)
    requires !IsCamel(from) && IsCamel(target)
    ensures Join(target, Words(from, s)) == CamelFromUnderscores(s, target == UpperCamel)
  {
    UnderscoreWordsCamel(target, s);
  }

  /** Guava's shortcut from lower to upper underscore agrees with splitting and joining. */
  lemma {:induction false} UnderscoreToUpperUnderscore(s: string)
    ensures Join(UpperUnderscore, UnderscoreWords(s)) == Upper(s)
  {
    if s != [] {
      UnderscoreToUpperUnderscore(s[1..]);
      UnderscoreWordsCons(s);
      var rest := UnderscoreWords(s[1..]);
      if s[0] == '_' {
        UpperUnderscoreSeparator(s, rest);
      } else {
        UpperUnderscoreLetter(s, rest);
      }
    }
  }

  /** A `_` ends the current word and is kept. */
  lemma UpperUnderscoreSeparator(s: string, rest: seq<string>)
    requires s != [] && s[0] == '_' && |rest| >= 1
    requires UnderscoreWords(s)[0] == [] && UnderscoreWords(s)[1..] == rest
    requires Join(UpperUnderscore, rest) == Upper(s[1..])
    ensures Join(UpperUnderscore, UnderscoreWords(s)) == Upper(s)
  {
    var j := JoinRest(UpperUnderscore, rest[1..]);
    assert JoinRest(UpperUnderscore, rest) == "_" + Upper(rest[0]) + j;
    AppendAssoc("_", Upper(rest[0]), j);
    assert Upper([]) + JoinRest(UpperUnderscore, rest) == JoinRest(UpperUnderscore, rest);
  }

  /** Any other character joins the current word, upper-cased. */
  lemma UpperUnderscoreLetter(s: string, rest: seq<string>)
    requires s != [] && s[0] != '_' && |rest| >= 1
    requires UnderscoreWords(s)[0] == [s[0]] + rest[0] && UnderscoreWords(s)[1..] == rest[1..]
    requires Join(UpperUnderscore, rest) == Upper(s[1..])
    ensures Join(UpperUnderscore, UnderscoreWords(s)) == Upper(s)
  {
    UpperCons(s[0], rest[0]);
    AppendAssoc([ToUpper(s[0])], Upper(rest[0]), JoinRest(UpperUnderscore, rest[1..]));
  }

  // ---------------------------------------------------------------------------
  // Shape of the results

  lemma {:induction false} CamelFromUnderscoresShape(t: string, capitalize: bool)
    ensures '_' !in CamelFromUnderscores(t, capitalize)
    ensures t != [] && t[0] != '_' ==>
      CamelFromUnderscores(t, capitalize) != [] &&
      CamelFromUnderscores(t, capitalize)[0] == if capitalize then ToUpper(t[0]) else ToLower(t[0])
  {
    if t != [] {
      CamelFromUnderscoresShape(t[1..], t[0] == '_');
      CamelFromUnderscoresShape(t[1..], false);
    }
  }

  lemma {:induction false} UnderscoresFromCamelNoLower(t: string)
    ensures !HasLower(UnderscoresFromCamel(t))
  {
    if t != [] {
      UnderscoresFromCamelNoLower(t[1..]);
      var rest := UnderscoresFromCamel(t[1..]);
      var first := if IsUpper(t[0]) then "_" + [t[0]] else [ToUpper(t[0])];
      assert UnderscoresFromCamel(t) == first + rest;
      assert forall i :: 0 <= i < |first + rest| ==> !IsLower((first + rest)[i]) by {
        forall i | 0 <= i < |first + rest|
          ensures !IsLower((first + rest)[i])
        {
          if i >= |first| {
            assert (first + rest)[i] == rest[i - |first|];
          }
        }
      }
    }
  }

  lemma UpperNoLower(s: string)
    ensures !HasLower(Upper(s))
  {
    forall i | 0 <= i < |s|
      ensures !IsLower(Upper(s)[i])
    {
      UpperAt(s, i);
    }
  }

  // ---------------------------------------------------------------------------
  // The reference conversions work piecewise

  /** Whether the character after `a` starts a word. */
  function CapitalizeAfter(a: string, capitalize: bool): bool
  {
    if a == [] then capitalize else a[|a| - 1] == '_'
  }

  lemma {:induction false} CamelFromUnderscoresAppend(a: string, b: string, capitalize: bool)
    ensures CamelFromUnderscores(a + b, capitalize)
         == CamelFromUnderscores(a, capitalize) + CamelFromUnderscores(b, CapitalizeAfter(a, capitalize))
  {
    if a == [] {
      assert a + b == b;
    } else {
      assert (a + b)[0] == a[0];
      assert (a + b)[1..] == a[1..] + b;
      CamelFromUnderscoresAppend(a[1..], b, a[0] == '_');
      if |a| > 1 {
        assert a[1..][|a| - 2] == a[|a| - 1];
      }
    }
  }

  lemma {:induction false} UnderscoresFromCamelAppend(a: string, b: string)
    ensures UnderscoresFromCamel(a + b) == UnderscoresFromCamel(a) + UnderscoresFromCamel(b)
  {
    if a == [] {
      assert a + b == b;
    } else {
      assert (a + b)[0] == a[0];
      assert (a + b)[1..] == a[1..] + b;
      UnderscoresFromCamelAppend(a[1..], b);
    }
  }
}
