/** Star names: a fixed list of curated names handed out in order, then
    pronounceable random names composed from consonant and vowel fragments.

    Randomness is injected: `roll(k)` is the k-th raw number behind the
    k-th call of `random.randint`, and every fragment reports the cursor
    after the draws it made, so that the draws are consumed in the same
    order as in the game. */
module StarNames {

  /** The curated names, in the order they are handed out. */
  const Curated: seq<string> := [
    "Alderaan", "Amon Shek", "Anacreon", "Aquaria", "Ariel", "Arrakis", "Bellerophon",
    "Betelgeuse", "Caladan", "Capella", "Caprica", "Coruscant", "Dantooine", "Eridani",
    "Fomalhaut", "Gemenon", "Giedi Prime", "Gliese", "Haven", "Iota", "Ix", "Jakku",
    "Jiangyin", "Kobol", "Lambda", "Mintaka", "Miranda", "Pegasus", "Persephone",
    "Romulus", "Salusa Secundus", "Tatooine", "Vulcan", "Whitefall"
  ]

  const Consonants: string := "bcdfghjklmnpqrstvwxz"
  const ConsonantPairs: seq<string> := ["ch", "sh", "th", "ck"]
  const Vowels: string := "aeiouy"
  const VowelPairs: seq<string> := ["ea", "ae", "oo", "ow"]

  /** A drawn fragment and the roll cursor after the draws that produced it. */
  datatype Draw = Draw(text: string, next: nat)

  predicate IsLower(c: char) {
    'a' <= c <= 'z'
  }

  predicate IsUpper(c: char) {
    'A' <= c <= 'Z'
  }

  predicate LowerWord(s: string) {
    forall i :: 0 <= i < |s| ==> IsLower(s[i])
  }

  /** The shape every random name has: a capital letter followed by lower-case letters,
      between 2 and 16 characters long. */
  predicate IsRandomName(s: string) {
    2 <= |s| <= 16 && IsUpper(s[0]) && LowerWord(s[1..])
  }

  /** `random.randint(lo, hi)` built from the k-th raw roll: inclusive at both ends. */
  function RandInt(roll: nat -> nat, k: nat, lo: int, hi: int): (r: int)
    requires lo <= hi
    ensures lo <= r <= hi
    ensures roll(k) <= hi - lo ==> r == lo + roll(k)
  {
    lo + roll(k) % (hi - lo + 1)
  }

  lemma LowerWordConcat(a: string, b: string)
    requires LowerWord(a) && LowerWord(b)
    ensures LowerWord(a + b)
  {
    assert forall i :: 0 <= i < |a + b| ==> (a + b)[i] == if i < |a| then a[i] else b[i - |a|];
  }

  /** One consonant or consonant pair; the first roll picks between the two tables. */
  function GetConsonant(roll: nat -> nat, k: nat): (d: Draw)
    ensures 1 <= |d.text| <= 2 && LowerWord(d.text) && d.next == k + 2
  {
    if RandInt(roll, k, 1, |Consonants| + |ConsonantPairs|) < |ConsonantPairs| then
      Draw(ConsonantPairs[RandInt(roll, k + 1, 0, |ConsonantPairs| - 1)], k + 2)
    else
      Draw([Consonants[RandInt(roll, k + 1, 0, |Consonants| - 1)]], k + 2)
  }

  /** One vowel or vowel pair; the first roll picks between the two tables. */
  function GetVowel(roll: nat -> nat, k: nat): (d: Draw)
    ensures 1 <= |d.text| <= 2 && LowerWord(d.text) && d.next == k + 2
  {
    if RandInt(roll, k, 1, |Vowels| + |VowelPairs|) < |VowelPairs| then
      Draw(VowelPairs[RandInt(roll, k + 1, 0, |VowelPairs| - 1)], k + 2)
    else
      Draw([Vowels[RandInt(roll, k + 1, 0, |Vowels| - 1)]], k + 2)
  }

  /** An optional leading consonant (three times in four) followed by a vowel. */
  function GetStart(roll: nat -> nat, k: nat): (d: Draw)
    ensures 1 <= |d.text| <= 4 && LowerWord(d.text) && k + 3 <= d.next <= k + 5
  {
    var c := if RandInt(roll, k, 1, 4) > 1 then GetConsonant(roll, k + 1) else Draw("", k + 1);
    var v := GetVowel(roll, c.next);
    LowerWordConcat(c.text, v.text);
    Draw(c.text + v.text, v.next)
  }

  /** A consonant, followed by a vowel one time in two. */
  function GetEnd(roll: nat -> nat, k: nat): (d: Draw)
    ensures 1 <= |d.text| <= 4 && LowerWord(d.text) && k + 3 <= d.next <= k + 5
  {
    var c := GetConsonant(roll, k);
    if RandInt(roll, c.next, 1, 2) > 1 then
      var v := GetVowel(roll, c.next + 1);
      LowerWordConcat(c.text, v.text);
      Draw(c.text + v.text, v.next)
    else
      Draw(c.text, c.next + 1)
  }

  function GetSyllable(roll: nat -> nat, k: nat): (d: Draw)
    ensures 2 <= |d.text| <= 4 && LowerWord(d.text) && d.next == k + 4
  {
    var c := GetConsonant(roll, k);
    var v := GetVowel(roll, c.next);
    LowerWordConcat(c.text, v.text);
    Draw(c.text + v.text, v.next)
  }

  /** No syllable (a roll of 6), two syllables (4 or 5) or one syllable (1 to 3). */
  function GetMiddle(roll: nat -> nat, k: nat): (d: Draw)
    ensures |d.text| <= 8 && LowerWord(d.text) && k + 1 <= d.next <= k + 9
  {
    var r := RandInt(roll, k, 1, 6);
    if r == 6 then
      Draw("", k + 1)
    else if r > 3 then
      var s1 := GetSyllable(roll, k + 1);
      var s2 := GetSyllable(roll, s1.next);
      LowerWordConcat(s1.text, s2.text);
      Draw(s1.text + s2.text, s2.next)
    else
      GetSyllable(roll, k + 1)
  }

  /** The upper-case form of a lower-case letter; other characters are unchanged. */
  function Upper(c: char): (u: char)
    ensures IsLower(c) ==> IsUpper(u) && u as int == c as int - 32
    ensures !IsLower(c) ==> u == c
  {
    if IsLower(c) then (c as int - 32) as char else c
  }

  /** The word with its first letter capitalised and the rest unchanged. */
  function Capitalise(s: string): (r: string)
    requires |s| > 0
    ensures |r| == |s|
    ensures LowerWord(s) ==> IsUpper(r[0]) && LowerWord(r[1..])
  {
    [Upper(s[0])] + s[1..]
  }

  /** A random name: start + middle + end, capitalised. */
  function RandomName(roll: nat -> nat, k: nat): (d: Draw)
    ensures IsRandomName(d.text)
    ensures k + 7 <= d.next <= k + 19
  {
    var s := GetStart(roll, k);
    var m := GetMiddle(roll, s.next);
    var e := GetEnd(roll, m.next);
    var word := s.text + m.text + e.text;
    LowerWordConcat(s.text, m.text);
    LowerWordConcat(s.text + m.text, e.text);
    var r := Capitalise(word);
    assert LowerWord(word[1..]);
    Draw(r, e.next)
  }

  /** A source of random names for the generator: `random(k)` is the name drawn with
      the roll cursor at `k`, and the cursor after its draws. */
  function RandomNames(roll: nat -> nat): nat -> Draw {
    (k: nat) => RandomName(roll, k)
  }

  /** Every name the source offers has the shape of a random name. */
  ghost predicate Pronounceable(random: nat -> Draw) {
    forall k :: IsRandomName(random(k).text)
  }

  lemma RandomNamesPronounceable(roll: nat -> nat)
    ensures Pronounceable(RandomNames(roll))
  {
    forall k
      ensures IsRandomName(RandomNames(roll)(k).text)
    {
      var d := RandomName(roll, k);
      assert RandomNames(roll)(k) == d;
    }
  }

  /** The name generator's state: how many of the curated names are used, and the roll cursor. */
  datatype NameState = NameState(index: nat, cursor: nat)

  datatype Named = Named(name: string, state: NameState)

  /** One name: the next of the curated `names` while any is left, otherwise a random one. */
  function NextName(st: NameState, names: seq<string>, random: nat -> Draw): Named {
    if st.index < |names| then
      Named(names[st.index], NameState(st.index + 1, st.cursor))
    else
      var d := random(st.cursor);
      Named(d.text, NameState(st.index, d.next))
  }

  datatype NameRun = NameRun(names: seq<string>, end: NameState)

  function Min(a: int, b: int): int {
    if a <= b then a else b
  }

  /** The first `n` names generated from state `st`, and the state after them. */
  function GenNames(st: NameState, names: seq<string>, random: nat -> Draw, n: nat): (r: NameRun)
    ensures |r.names| == n
    ensures st.index <= |names| ==> r.end.index == Min(st.index + n, |names|)
  {
    if n == 0 then
      NameRun([], st)
    else
      var prev := GenNames(st, names, random, n - 1);
      var next := NextName(prev.end, names, random);
      NameRun(prev.names + [next.name], next.state)
  }

  /** The curated names come first, in list order. */
  lemma {:induction false} NamesCurated(st: NameState, names: seq<string>, random: nat -> Draw, n: nat)
    requires st.index <= |names|
    ensures forall i :: 0 <= i < n && st.index + i < |names| ==>
      GenNames(st, names, random, n).names[i] == names[st.index + i]
  {
    if n > 0 {
      NamesCurated(st, names, random, n - 1);
      var prev := GenNames(st, names, random, n - 1);
      var run := GenNames(st, names, random, n).names;
      assert run == prev.names + [NextName(prev.end, names, random).name];
      forall i | 0 <= i < n && st.index + i < |names|
        ensures run[i] == names[st.index + i]
      {
        if i < n - 1 {
          assert run[i] == prev.names[i];
        } else {
          assert prev.end.index == st.index + i;
          assert run[i] == NextName(prev.end, names, random).name;
        }
      }
    }
  }

  /** Every name after the curated ones is a random one. */
  lemma {:induction false} NamesRandom(st: NameState, names: seq<string>, random: nat -> Draw, n: nat)
    requires st.index <= |names| && Pronounceable(random)
    ensures forall i :: 0 <= i < n && st.index + i >= |names| ==>
      IsRandomName(GenNames(st, names, random, n).names[i])
  {
    if n > 0 {
      NamesRandom(st, names, random, n - 1);
      var prev := GenNames(st, names, random, n - 1);
      var run := GenNames(st, names, random, n).names;
      assert run == prev.names + [NextName(prev.end, names, random).name];
      forall i | 0 <= i < n && st.index + i >= |names|
        ensures IsRandomName(run[i])
      {
        if i < n - 1 {
          assert run[i] == prev.names[i];
        } else {
          assert prev.end.index >= |names|;
          assert run[i] == random(prev.end.cursor).text;
        }
      }
    }
  }

  /** A generator that starts fresh hands out exactly the curated list on its first
      calls, without drawing any roll. */
  lemma FreshGeneratorCurated(names: seq<string>, cursor: nat, random: nat -> Draw)
    ensures GenNames(NameState(0, cursor), names, random, |names|).names == names
    ensures GenNames(NameState(0, cursor), names, random, |names|).end == NameState(|names|, cursor)
  {
    NamesCurated(NameState(0, cursor), names, random, |names|);
    CuratedKeepsCursor(NameState(0, cursor), names, random, |names|);
  }

  lemma {:induction false} CuratedKeepsCursor(st: NameState, names: seq<string>, random: nat -> Draw, n: nat)
    requires st.index + n <= |names|
    ensures GenNames(st, names, random, n).end == NameState(st.index + n, st.cursor)
  {
    if n > 0 {
      CuratedKeepsCursor(st, names, random, n - 1);
    }
  }
}
