/** The pure part of the password generator: the three fixed alphabets, the
    pool they are concatenated into for a given selection of character
    classes, how one random number in [0, 1) picks a position in that pool,
    and the string that a sequence of such numbers draws from it. */
module PasswordPool {

  /** The three character classes the form offers, in pool order. */
  datatype CharClass = Letters | Digits | Special

  const LetterAlphabet: string := "ABCDEFGHIJKLMNOPQRSTUVWXYZabcdefghijklmnopqrstuvwxyz"
  const DigitAlphabet: string := "0123456789"
  const SpecialAlphabet: string := "!@#$%^&*()"

  /** Every symbol that any selection can put into a password. */
  const FullPool: string := LetterAlphabet + DigitAlphabet + SpecialAlphabet

  function Alphabet(k: CharClass): string {
    match k
    case Letters => LetterAlphabet
    case Digits => DigitAlphabet
    case Special => SpecialAlphabet
  }

  /** The three check boxes of the form: letters, numbers, special characters. */
  datatype Selection = Selection(chars: bool, numbers: bool, special: bool)

  predicate Enabled(sel: Selection, k: CharClass) {
    match k
    case Letters => sel.chars
    case Digits => sel.numbers
    case Special => sel.special
  }

  predicate AnyEnabled(sel: Selection) {
    sel.chars || sel.numbers || sel.special
  }

  /** The pool: the enabled alphabets appended in the fixed order letters,
      digits, special, each one skipped when its box is unchecked. */
  function Pool(sel: Selection): (p: string)
    ensures |p| == (if sel.chars then 52 else 0) + (if sel.numbers then 10 else 0)
                   + (if sel.special then 10 else 0)
    ensures p == [] <==> !AnyEnabled(sel)
  {
    var p0 := "";
    var p1 := if sel.chars then p0 + LetterAlphabet else p0;
    var p2 := if sel.numbers then p1 + DigitAlphabet else p1;
    if sel.special then p2 + SpecialAlphabet else p2
  }

  /** A symbol is in the pool exactly when some enabled class's alphabet
      holds it. */
  lemma PoolMembership(sel: Selection, c: char)
    ensures c in Pool(sel) <==> exists k :: Enabled(sel, k) && c in Alphabet(k)
  {
    if c in Pool(sel) {
      if sel.chars && c in LetterAlphabet {
        assert Enabled(sel, Letters) && c in Alphabet(Letters);
      } else if sel.numbers && c in DigitAlphabet {
        assert Enabled(sel, Digits) && c in Alphabet(Digits);
      } else {
        assert Enabled(sel, Special) && c in Alphabet(Special);
      }
    }
  }

  // ---------------------------------------------------------------------
  // An independent reading of "the pool": the full 72-symbol alphabet with
  // the symbols of disabled classes filtered out.

  /** An optional value: no class for a symbol outside all three alphabets
      here, and no clipboard text for an empty password in the component. */
  datatype Option<T> = None | Some(value: T)

  /** The class a symbol belongs to, read off its code point. */
  function ClassOf(c: char): (k: Option<CharClass>) {
    if 'A' <= c <= 'Z' || 'a' <= c <= 'z' then Some(Letters)
    else if '0' <= c <= '9' then Some(Digits)
    else if c in SpecialAlphabet then Some(Special)
    else None
  }

  predicate Keeps(sel: Selection, c: char) {
    ClassOf(c).Some? && Enabled(sel, ClassOf(c).value)
  }

  /** The symbols of s whose class is enabled, in their order in s. */
  function Keep(sel: Selection, s: string): (r: string)
    ensures |r| <= |s|
  {
    if s == [] then [] else
      Keep(sel, s[..|s| - 1]) + (if Keeps(sel, s[|s| - 1]) then [s[|s| - 1]] else [])
  }

  predicate AllOfClass(s: string, k: CharClass) {
    forall i :: 0 <= i < |s| ==> ClassOf(s[i]) == Some(k)
  }

  lemma {:induction false} KeepAppend(sel: Selection, a: string, b: string)
    ensures Keep(sel, a + b) == Keep(sel, a) + Keep(sel, b)
    decreases |b|
  {
    if b == [] {
      assert a + b == a;
    } else {
      var b' := b[..|b| - 1];
      assert (a + b)[..|a + b| - 1] == a + b';
      KeepAppend(sel, a, b');
    }
  }

  lemma {:induction false} KeepUniform(sel: Selection, s: string, k: CharClass)
    requires AllOfClass(s, k)
    ensures Keep(sel, s) == if Enabled(sel, k) then s else []
    decreases |s|
  {
    if s != [] {
      var s' := s[..|s| - 1];
      assert AllOfClass(s', k) by {
        forall i | 0 <= i < |s'| ensures ClassOf(s'[i]) == Some(k) {
          assert s'[i] == s[i];
        }
      }
      KeepUniform(sel, s', k);
      assert ClassOf(s[|s| - 1]) == Some(k);
      if Enabled(sel, k) {
        assert s' + [s[|s| - 1]] == s;
      }
    }
  }

  lemma ClassifiedAppend(a: string, b: string, k: CharClass)
    requires AllOfClass(a, k) && AllOfClass(b, k)
    ensures AllOfClass(a + b, k)
  {
    forall i | 0 <= i < |a + b| ensures ClassOf((a + b)[i]) == Some(k) {
      if i >= |a| {
        assert (a + b)[i] == b[i - |a|];
      }
    }
  }

  /** Each symbol of each alphabet is classified as that alphabet's class.
      The letters are checked thirteen at a time. */
  lemma LettersClassified()
    ensures AllOfClass(LetterAlphabet, Letters)
  {
    var a, b, c, d := "ABCDEFGHIJKLM", "NOPQRSTUVWXYZ", "abcdefghijklm", "nopqrstuvwxyz";
    LettersSplit();
    UpperChunk(a);
    UpperChunk(b);
    LowerChunk(c);
    LowerChunk(d);
    ClassifiedAppend(a, b, Letters);
    ClassifiedAppend(a + b, c, Letters);
    ClassifiedAppend(a + b + c, d, Letters);
  }

  lemma LettersSplit()
    ensures LetterAlphabet == "ABCDEFGHIJKLM" + "NOPQRSTUVWXYZ" + "abcdefghijklm" + "nopqrstuvwxyz"
  {
  }

  lemma UpperChunk(s: string)
    requires forall i :: 0 <= i < |s| ==> 'A' <= s[i] <= 'Z'
    ensures AllOfClass(s, Letters)
  {
  }

  lemma LowerChunk(s: string)
    requires forall i :: 0 <= i < |s| ==> 'a' <= s[i] <= 'z'
    ensures AllOfClass(s, Letters)
  {
  }

  lemma AlphabetsClassified()
    ensures AllOfClass(LetterAlphabet, Letters)
    ensures AllOfClass(DigitAlphabet, Digits)
    ensures AllOfClass(SpecialAlphabet, Special)
  {
    LettersClassified();
  }

  /** Pool construction agrees with filtering the full alphabet by class:
      so the pool holds exactly the enabled classes' symbols, each once,
      letters before digits before special symbols. */
  lemma PoolIsFilteredFullPool(sel: Selection)
    ensures Pool(sel) == Keep(sel, FullPool)
  {
    AlphabetsClassified();
    var l, d, x := Part(sel, Letters), Part(sel, Digits), Part(sel, Special);
    KeepUniform(sel, LetterAlphabet, Letters);
    KeepUniform(sel, DigitAlphabet, Digits);
    KeepUniform(sel, SpecialAlphabet, Special);
    calc {
      Keep(sel, FullPool);
    == { KeepAppend(sel, LetterAlphabet + DigitAlphabet, SpecialAlphabet); }
      Keep(sel, LetterAlphabet + DigitAlphabet) + Keep(sel, SpecialAlphabet);
    == { KeepAppend(sel, LetterAlphabet, DigitAlphabet); }
      l + d + x;
    == { PoolByParts(sel); }
      Pool(sel);
    }
  }

  /** The contribution of class k to the pool of a selection. */
  function Part(sel: Selection, k: CharClass): string {
    if Enabled(sel, k) then Alphabet(k) else []
  }

  lemma PoolByParts(sel: Selection)
    ensures Pool(sel) == Part(sel, Letters) + Part(sel, Digits) + Part(sel, Special)
  {
    assert "" + LetterAlphabet == LetterAlphabet;
    assert Part(sel, Letters) + Part(sel, Digits) == Pool(Selection(sel.chars, sel.numbers, false));
  }

  // ---------------------------------------------------------------------
  // Drawing from the pool.

  /** The random numbers handed to the generator: each in [0, 1), like the
      results of the platform's uniform random source. */
  predicate ValidDraws(draws: seq<real>) {
    forall i :: 0 <= i < |draws| ==> 0.0 <= draws[i] < 1.0
  }

  /** The position a random number r picks in a pool of n symbols:
      floor(r * n). For a non-empty pool this is always a valid position. */
  function DrawIndex(r: real, n: nat): (k: nat)
    requires 0.0 <= r < 1.0
    requires n > 0
    ensures k < n
    ensures k as real <= r * n as real < (k + 1) as real
  {
    assert 0.0 <= r * n as real by {
      assert 0.0 <= n as real;
    }
    assert r * n as real < n as real by {
      assert r * n as real < 1.0 * n as real;
    }
    (r * n as real).Floor
  }

  /** The password a sequence of random numbers draws from a non-empty pool:
      one pool symbol per number, appended in draw order. */
  function Sample(pool: string, draws: seq<real>): (s: string)
    requires pool != []
    requires ValidDraws(draws)
    ensures |s| == |draws|
    decreases |draws|
  {
    if draws == [] then [] else
      var prefix := draws[..|draws| - 1];
      Sample(pool, prefix) + [pool[DrawIndex(draws[|draws| - 1], |pool|)]]
  }

  /** Symbol i of a drawn password is the pool symbol at the position the
      i-th random number picks. */
  lemma {:induction false} SampleAt(pool: string, draws: seq<real>, i: nat)
    requires pool != []
    requires ValidDraws(draws)
    requires i < |draws|
    ensures Sample(pool, draws)[i] == pool[DrawIndex(draws[i], |pool|)]
    decreases |draws|
  {
    var prefix := draws[..|draws| - 1];
    if i < |prefix| {
      SampleAt(pool, prefix, i);
    }
  }

  /** One step of the draw loop: the password drawn by the first n + 1
      numbers is the one drawn by the first n, plus the symbol number n picks. */
  lemma SampleExtend(pool: string, draws: seq<real>, n: nat)
    requires pool != []
    requires ValidDraws(draws)
    requires n < |draws|
    ensures Sample(pool, draws[..n + 1])
            == Sample(pool, draws[..n]) + [pool[DrawIndex(draws[n], |pool|)]]
  {
    assert draws[..n + 1][..n] == draws[..n];
  }

  /** Drawing more numbers never changes the symbols already drawn: the
      password drawn by the first m numbers is the first m symbols of the
      password drawn by all of them. */
  lemma {:induction false} SamplePrefix(pool: string, draws: seq<real>, m: nat)
    requires pool != []
    requires ValidDraws(draws)
    requires m <= |draws|
    ensures Sample(pool, draws[..m]) == Sample(pool, draws)[..m]
    decreases |draws|
  {
    if m < |draws| {
      var p := draws[..|draws| - 1];
      assert draws[..m] == p[..m];
      SamplePrefix(pool, p, m);
    } else {
      assert draws[..m] == draws;
    }
  }

  /** Every symbol of a password drawn from the pool of a selection belongs
      to the alphabet of a class that is enabled in that selection, and its
      class, read off the symbol itself, is an enabled one. */
  lemma {:induction false} SampleFromEnabledClasses(sel: Selection, draws: seq<real>, i: nat)
    requires AnyEnabled(sel)
    requires ValidDraws(draws)
    requires i < |draws|
    ensures exists k :: Enabled(sel, k) && Sample(Pool(sel), draws)[i] in Alphabet(k)
    ensures Keeps(sel, Sample(Pool(sel), draws)[i])
  {
    var pool := Pool(sel);
    SampleAt(pool, draws, i);
    var c := Sample(pool, draws)[i];
    assert c in pool;
    PoolMembership(sel, c);
    PoolIsFilteredFullPool(sel);
    KeptSymbols(sel, FullPool, c);
  }

  /** Whatever the selection, a drawn password only uses symbols of the
      72-symbol alphabet. */
  lemma SampleWithinFullPool(sel: Selection, draws: seq<real>)
    requires AnyEnabled(sel)
    requires ValidDraws(draws)
    ensures forall i :: 0 <= i < |draws| ==> Sample(Pool(sel), draws)[i] in FullPool
  {
    forall i | 0 <= i < |draws| ensures Sample(Pool(sel), draws)[i] in FullPool {
      SampleFromEnabledClasses(sel, draws, i);
    }
  }

  /** With only the numbers box checked, every symbol drawn is a decimal
      digit. */
  lemma DigitsOnly(draws: seq<real>)
    requires ValidDraws(draws)
    ensures forall i :: 0 <= i < |draws| ==>
              '0' <= Sample(Pool(Selection(false, true, false)), draws)[i] <= '9'
  {
    var sel := Selection(false, true, false);
    forall i | 0 <= i < |draws|
      ensures '0' <= Sample(Pool(sel), draws)[i] <= '9'
    {
      SampleFromEnabledClasses(sel, draws, i);
    }
  }

  /** A symbol that survives filtering passes the filter. */
  lemma {:induction false} KeptSymbols(sel: Selection, s: string, c: char)
    requires c in Keep(sel, s)
    ensures Keeps(sel, c)
    decreases |s|
  {
    if s != [] {
      var s' := s[..|s| - 1];
      if c in Keep(sel, s') {
        KeptSymbols(sel, s', c);
      }
    }
  }
}
