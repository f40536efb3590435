/** scripts/seeds/devSeeder.js, `capitalizeWords`: lower-case a string,
    split it at single spaces, upper-case the first character of each word
    and join the words again. Case mapping is the ASCII one. */
module Seeder {
  import opened Text

  /** `word.charAt(0).toUpperCase() + word.slice(1)`. */
  function Capitalize(word: string): string {
    if word == [] then [] else [UpperChar(word[0])] + word[1..]
  }

  /** `words.map(Capitalize)`. */
  function CapitalizeAll(words: seq<string>): (r: seq<string>)
    ensures |r| == |words|
  {
    if words == [] then [] else [Capitalize(words[0])] + CapitalizeAll(words[1..])
  }

  /** `capitalizeWords`. */
  function CapitalizeWords(s: string): string {
    Join(CapitalizeAll(Split(ToLower(s), ' ')), " ")
  }

  /** The reference definition, one character at a time: a character that
      starts the string or follows a space is upper-cased, every other one
      lower-cased. */
  function CapitalizedChar(s: string, k: int): char
    requires 0 <= k < |s|
  {
    if k == 0 || s[k - 1] == ' ' then UpperChar(LowerChar(s[k])) else LowerChar(s[k])
  }

  /** The words of `t` joined back, the first one capitalized only when
      `first` holds. */
  function Rejoined(t: string, first: bool): string {
    var parts := Split(t, ' ');
    Join([if first then Capitalize(parts[0]) else parts[0]] + CapitalizeAll(parts[1..]), " ")
  }

  /** Prepending to the first of several joined parts prepends to the join. */
  lemma JoinFirst(a: string, x: string, rest: seq<string>, sep: string)
    ensures Join([a + x] + rest, sep) == a + Join([x] + rest, sep)
  {
    if rest != [] {
      assert ([a + x] + rest)[1..] == rest;
      assert ([x] + rest)[1..] == rest;
    }
  }

  /** One step of the rejoin: the first character of `t` (upper-cased when
      it begins a capitalized word) followed by the rejoin of the rest. */
  lemma RejoinedStep(t: string, first: bool)
    requires t != []
    ensures Rejoined(t, first)
         == (if t[0] == ' ' then [' '] else if first then [UpperChar(t[0])] else [t[0]])
            + Rejoined(t[1..], t[0] == ' ')
  {
    var rest := Split(t[1..], ' ');
    var tail := Rejoined(t[1..], t[0] == ' ');
    assert CapitalizeAll(rest) == [Capitalize(rest[0])] + CapitalizeAll(rest[1..]);
    if t[0] == ' ' {
      assert Split(t, ' ') == [[]] + rest;
      var parts := [[]] + CapitalizeAll(rest);
      assert ([if first then Capitalize([]) else []] + CapitalizeAll(rest)) == parts;
      assert parts[1..] == CapitalizeAll(rest);
    } else {
      assert Split(t, ' ') == [[t[0]] + rest[0]] + rest[1..];
      var head := if first then [UpperChar(t[0])] else [t[0]];
      assert (if first then Capitalize([t[0]] + rest[0]) else [t[0]] + rest[0]) == head + rest[0];
      JoinFirst(head, rest[0], CapitalizeAll(rest[1..]), " ");
    }
  }

  /** Character `k` of `t` upper-cased when it begins a word (the first
      one only when `first` holds). */
  function WordCased(t: string, first: bool, k: int): char
    requires 0 <= k < |t|
  {
    if (k == 0 && first) || (k > 0 && t[k - 1] == ' ') then UpperChar(t[k]) else t[k]
  }

  /** Joining words back keeps each character, upper-casing exactly those
      that begin a word. */
  lemma {:induction false} RejoinedChars(t: string, first: bool)
    ensures |Rejoined(t, first)| == |t|
    ensures forall k :: 0 <= k < |t| ==> Rejoined(t, first)[k] == WordCased(t, first, k)
  {
    if t == [] {
      assert Split(t, ' ') == [[]];
    } else {
      RejoinedChars(t[1..], t[0] == ' ');
      RejoinedStep(t, first);
      var tail := Rejoined(t[1..], t[0] == ' ');
      assert |Rejoined(t, first)| == 1 + |tail|;
      forall k | 0 <= k < |t|
        ensures Rejoined(t, first)[k] == WordCased(t, first, k)
      {
        if k == 0 {
          assert UpperChar(' ') == ' ';
        } else {
          assert Rejoined(t, first)[k] == tail[k - 1] == WordCased(t[1..], t[0] == ' ', k - 1);
          assert t[1..][k - 1] == t[k];
          if k > 1 {
            assert t[1..][k - 2] == t[k - 1];
          }
        }
      }
    }
  }

  /** `capitalizeWords` agrees with the reference definition: the output
      has the input's length, and each word's first character is
      upper-cased and the rest lower-cased. */
  lemma CapitalizeWordsChars(s: string)
    ensures |CapitalizeWords(s)| == |s|
    ensures forall k :: 0 <= k < |s| ==> CapitalizeWords(s)[k] == CapitalizedChar(s, k)
  {
    var t := ToLower(s);
    var parts := Split(t, ' ');
    assert CapitalizeAll(parts) == [Capitalize(parts[0])] + CapitalizeAll(parts[1..]);
    assert CapitalizeWords(s) == Rejoined(t, true);
    RejoinedChars(t, true);
    forall k | 0 <= k < |s|
      ensures t[k] == ' ' <==> s[k] == ' '
    {
    }
  }

  /** The spaces stay where they were, so the words are the same in number
      and in length. */
  lemma CapitalizeWordsKeepsSpaces(s: string)
    ensures |CapitalizeWords(s)| == |s|
    ensures forall k :: 0 <= k < |s| ==> (CapitalizeWords(s)[k] == ' ' <==> s[k] == ' ')
    ensures |Split(CapitalizeWords(s), ' ')| == |Split(s, ' ')|
  {
    CapitalizeWordsChars(s);
    SplitSameSpaces(CapitalizeWords(s), s);
  }

  /** Strings with spaces in the same places split into as many words. */
  lemma {:induction false} SplitSameSpaces(a: string, b: string)
    requires |a| == |b|
    requires forall k :: 0 <= k < |a| ==> (a[k] == ' ' <==> b[k] == ' ')
    ensures |Split(a, ' ')| == |Split(b, ' ')|
  {
    if a != [] {
      SplitSameSpaces(a[1..], b[1..]);
    }
  }

  /** Capitalizing an already capitalized string changes nothing. */
  lemma CapitalizeWordsIdempotent(s: string)
    ensures CapitalizeWords(CapitalizeWords(s)) == CapitalizeWords(s)
  {
    var c := CapitalizeWords(s);
    CapitalizeWordsChars(s);
    CapitalizeWordsChars(c);
    forall k | 0 <= k < |c|
      ensures CapitalizedChar(c, k) == c[k]
    {
      CapitalizedCharStable(s, c, k);
    }
  }

  /** A character the reference definition produced is produced again from
      the capitalized string. */
  lemma CapitalizedCharStable(s: string, c: string, k: int)
    requires |c| == |s| && 0 <= k < |s|
    requires c[k] == CapitalizedChar(s, k)
    requires k > 0 ==> c[k - 1] == CapitalizedChar(s, k - 1)
    ensures CapitalizedChar(c, k) == c[k]
  {
    if k > 0 {
      assert c[k - 1] == ' ' <==> s[k - 1] == ' ';
    }
  }
}
