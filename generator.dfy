/**
  Unique-code generation (generate.py:77-107): rejection sampling into a set.
  Each round draws `length` characters from the alphabet with
  `random.choice` and adds the resulting string to the set of codes; rounds
  repeat until the set holds `count` codes.

  The random draws are an oracle: `rounds[k]` lists the positions in the
  alphabet that `random.choice` picked in round `k`.
 */
module Generator {
  import opened Chars

  /** The `n` characters with consecutive code points from `first` on. */
  function Span(first: char, n: nat): (s: string)
    requires first as int + n <= 0xD800
    ensures |s| == n
  {
    seq(n, i requires 0 <= i < n => (first as int + i) as char)
  }

  /** A character is in a span exactly when its code point lies in the span's range. */
  lemma SpanMembers(first: char, n: nat, c: char)
    requires first as int + n <= 0xD800
    ensures c in Span(first, n) <==> first as int <= c as int < first as int + n
  {
    var s := Span(first, n);
    if first as int <= c as int < first as int + n {
      assert s[c as int - first as int] == c;
    }
  }

  /** Python's `string.ascii_lowercase`, `string.ascii_uppercase`,
      `string.ascii_letters` and `string.digits`. */
  const AsciiLowercase := Span('a', 26)
  const AsciiUppercase := Span('A', 26)
  const AsciiLetters := AsciiLowercase + AsciiUppercase
  const Digits := Span('0', 10)

  /** The alphabet of generate.py:93-98. */
  function Characters(alphnum: bool): (chars: string)
    ensures |chars| == if alphnum then 62 else 10
  {
    if alphnum then AsciiLetters + Digits else Digits
  }

  predicate IsAsciiLetter(c: char)
  {
    ('a' <= c <= 'z') || ('A' <= c <= 'Z')
  }

  /** The characters a code may contain: digits, and also ASCII letters when
      `alphnum` is set. */
  predicate InAlphabet(c: char, alphnum: bool)
  {
    IsDigit(c) || (alphnum && IsAsciiLetter(c))
  }

  /** The alphabet holds exactly the characters `InAlphabet` admits. */
  lemma CharactersMembers(alphnum: bool, c: char)
    ensures c in Characters(alphnum) <==> InAlphabet(c, alphnum)
  {
    SpanMembers('a', 26, c);
    SpanMembers('A', 26, c);
    SpanMembers('0', 10, c);
    assert c in AsciiLetters + Digits <==> c in AsciiLowercase || c in AsciiUppercase || c in Digits;
  }

  /** `range(length)` is empty for a negative length. */
  function Width(length: int): (n: nat)
    ensures length >= 0 ==> n == length
    ensures length < 0 ==> n == 0
  {
    if length < 0 then 0 else length
  }

  /** A code as the program promises: `length` characters of the alphabet. */
  predicate IsCode(code: string, length: int, alphnum: bool)
  {
    |code| == Width(length) && forall i :: 0 <= i < |code| ==> InAlphabet(code[i], alphnum)
  }

  /** Every pick names a position in the alphabet, as `random.choice` does. */
  predicate PicksIn(chars: string, picks: seq<nat>)
  {
    forall i :: 0 <= i < |picks| ==> picks[i] < |chars|
  }

  /** Every round only picks positions in the alphabet. */
  predicate AllPicksIn(chars: string, rounds: seq<seq<nat>>)
  {
    forall k :: 0 <= k < |rounds| ==> PicksIn(chars, rounds[k])
  }

  /** Every round of draws is `length` picks into the alphabet. */
  predicate ValidRounds(chars: string, length: int, rounds: seq<seq<nat>>)
  {
    AllPicksIn(chars, rounds) && forall k :: 0 <= k < |rounds| ==> |rounds[k]| == Width(length)
  }

  /** `''.join(random.choice(characters) for _ in range(length))` for one round of picks. */
  function Candidate(chars: string, picks: seq<nat>): (code: string)
    requires PicksIn(chars, picks)
    ensures |code| == |picks|
    ensures forall i :: 0 <= i < |code| ==> code[i] in chars
  {
    seq(|picks|, i requires 0 <= i < |picks| => chars[picks[i]])
  }

  /** The set `codes` after the given rounds. */
  function Drawn(chars: string, rounds: seq<seq<nat>>): (found: set<string>)
    requires AllPicksIn(chars, rounds)
    ensures |found| <= |rounds|
  {
    if rounds == [] then {}
    else Drawn(chars, rounds[..|rounds| - 1]) + {Candidate(chars, rounds[|rounds| - 1])}
  }

  /** One more round adds its candidate to the set: nothing is lost, a
      candidate already present changes nothing, and a new one adds exactly one. */
  lemma DrawnStep(chars: string, rounds: seq<seq<nat>>, picks: seq<nat>)
    requires AllPicksIn(chars, rounds) && PicksIn(chars, picks)
    ensures AllPicksIn(chars, rounds + [picks])
    ensures Drawn(chars, rounds + [picks]) == Drawn(chars, rounds) + {Candidate(chars, picks)}
    ensures Drawn(chars, rounds) <= Drawn(chars, rounds + [picks])
    ensures Candidate(chars, picks) in Drawn(chars, rounds) ==> Drawn(chars, rounds + [picks]) == Drawn(chars, rounds)
    ensures Candidate(chars, picks) !in Drawn(chars, rounds) ==> |Drawn(chars, rounds + [picks])| == |Drawn(chars, rounds)| + 1
  {
    assert (rounds + [picks])[..|rounds|] == rounds;
  }

  /** The set only grows from round to round. */
  lemma {:induction false} DrawnMonotone(chars: string, rounds: seq<seq<nat>>, j: nat, k: nat)
    requires AllPicksIn(chars, rounds) && j <= k <= |rounds|
    ensures Drawn(chars, rounds[..j]) <= Drawn(chars, rounds[..k])
    decreases k - j
  {
    if j < k {
      DrawnMonotone(chars, rounds, j, k - 1);
      assert rounds[..k] == rounds[..k - 1] + [rounds[k - 1]];
      DrawnStep(chars, rounds[..k - 1], rounds[k - 1]);
    }
  }

  /** Every code drawn from the alphabet of `alphnum` in rounds of `length`
      picks is a code of that length and alphabet. */
  lemma {:induction false} DrawnAreCodes(length: int, alphnum: bool, rounds: seq<seq<nat>>)
    requires ValidRounds(Characters(alphnum), length, rounds)
    ensures forall c :: c in Drawn(Characters(alphnum), rounds) ==> IsCode(c, length, alphnum)
  {
    if rounds != [] {
      var chars := Characters(alphnum);
      var init := rounds[..|rounds| - 1];
      DrawnAreCodes(length, alphnum, init);
      var code := Candidate(chars, rounds[|rounds| - 1]);
      forall i | 0 <= i < |code| ensures InAlphabet(code[i], alphnum) {
        CharactersMembers(alphnum, code[i]);
      }
    }
  }

  predicate Distinct(xs: seq<string>)
  {
    forall i, j :: 0 <= i < j < |xs| ==> xs[i] != xs[j]
  }

  /** `xs` lists the elements of `s`. */
  predicate Lists(xs: seq<string>, s: set<string>)
  {
    (forall x :: x in xs ==> x in s) && (forall x :: x in s ==> x in xs)
  }

  /** `list(codes)`: the elements of the set, each once, in no particular order. */
  method SetToList(s: set<string>) returns (xs: seq<string>)
    ensures |xs| == |s| && Distinct(xs) && Lists(xs, s)
  {
    xs := [];
    var rest := s;
    while rest != {}
      invariant rest <= s
      invariant forall x :: x in xs <==> x in s && x !in rest
      invariant Distinct(xs)
      invariant |xs| + |rest| == |s|
      decreases |rest|
    {
      var x :| x in rest;
      xs := xs + [x];
      rest := rest - {x};
    }
  }

  /** One turn of the rejection loop: round `k` adds its candidate, and a set
      still below `count` stays within `count`. */
  lemma CollectStep(chars: string, count: int, rounds: seq<seq<nat>>, k: nat)
    requires AllPicksIn(chars, rounds) && k < |rounds|
    requires |Drawn(chars, rounds[..k])| < count
    ensures AllPicksIn(chars, rounds[..k + 1])
    ensures Drawn(chars, rounds[..k + 1]) == Drawn(chars, rounds[..k]) + {Candidate(chars, rounds[k])}
    ensures |Drawn(chars, rounds[..k + 1])| <= count
  {
    assert rounds[..k + 1] == rounds[..k] + [rounds[k]];
    DrawnStep(chars, rounds[..k], rounds[k]);
  }

  /** While the set is smaller than what all rounds draw, a round is left. */
  lemma RoundsLeft(chars: string, rounds: seq<seq<nat>>, k: nat)
    requires AllPicksIn(chars, rounds) && k <= |rounds|
    requires |Drawn(chars, rounds[..k])| < |Drawn(chars, rounds)|
    ensures k < |rounds|
  {
    assert rounds[..|rounds|] == rounds;
  }

  /** The rejection loop of generate.py:100-104 over the alphabet `chars`:
      the set of codes drawn when it first reached `count` codes. */
  method Collect(chars: string, count: int, rounds: seq<seq<nat>>) returns (found: set<string>, k: nat)
    requires AllPicksIn(chars, rounds)
    requires count <= |Drawn(chars, rounds)|
    ensures |found| == if count < 0 then 0 else count
    ensures k <= |rounds| && found == Drawn(chars, rounds[..k])
    ensures k == 0 || |Drawn(chars, rounds[..k - 1])| < count
  {
    found, k := {}, 0;
    while |found| < count
      invariant k <= |rounds| && AllPicksIn(chars, rounds[..k])
      invariant found == Drawn(chars, rounds[..k])
      invariant |found| <= if count < 0 then 0 else count
      invariant k == 0 || |Drawn(chars, rounds[..k - 1])| < count
      decreases |rounds| - k
    {
      RoundsLeft(chars, rounds, k);
      CollectStep(chars, count, rounds, k);
      found := found + {Candidate(chars, rounds[k])};
      k := k + 1;
    }
  }

  /** `generate_codes(count, length, alphnum)`. The result is exactly `count`
      distinct codes (none for a count below one), each `length` characters
      of the alphabet, and as a set they are what the rounds had drawn when
      the set first reached `count` codes.

      The source loops until the set is big enough; the oracle is finite, so
      the rounds must be able to supply `count` distinct codes. */
  method GenerateCodes(count: int, length: int, alphnum: bool, rounds: seq<seq<nat>>)
    returns (codes: seq<string>)
    requires ValidRounds(Characters(alphnum), length, rounds)
    requires count <= |Drawn(Characters(alphnum), rounds)|
    ensures |codes| == if count < 0 then 0 else count
    ensures Distinct(codes)
    ensures forall i :: 0 <= i < |codes| ==> IsCode(codes[i], length, alphnum)
    ensures exists k :: 0 <= k <= |rounds| && Lists(codes, Drawn(Characters(alphnum), rounds[..k]))
                        && (k == 0 || |Drawn(Characters(alphnum), rounds[..k - 1])| < count)
  {
    var chars := Characters(alphnum);
    var found, k := Collect(chars, count, rounds);
    assert forall c :: c in found ==> IsCode(c, length, alphnum) by {
      assert ValidRounds(chars, length, rounds[..k]);
      DrawnAreCodes(length, alphnum, rounds[..k]);
    }
    codes := SetToList(found);
  }
}
