/** The key checksum and the two normal forms of a typed key (src/key.rs), over ASCII strings. */
module Key {

  const ALPHABET: string := "0123456789ABCDEFGHJKMNPQRSTVWXYZ"

  // Digits, then letters without I, L, O and U.
  function Rank(c: char): int {
    if c <= '9' then c as int - '0' as int
    else if c <= 'H' then c as int - 'A' as int + 10
    else if c <= 'K' then c as int - 'J' as int + 18
    else if c <= 'N' then c as int - 'M' as int + 20
    else if c <= 'T' then c as int - 'P' as int + 22
    else c as int - 'V' as int + 27
  }

  lemma SymbolsAreRanked()
    ensures |ALPHABET| == 32
    ensures forall i :: 0 <= i < 32 ==> Rank(ALPHABET[i]) == i
  {
  }

  lemma AlphabetHasNoRepeats()
    ensures |ALPHABET| == 32
    ensures forall i, j :: 0 <= i < j < 32 ==> ALPHABET[i] != ALPHABET[j]
  {
    SymbolsAreRanked();
    forall i, j | 0 <= i < j < 32 ensures ALPHABET[i] != ALPHABET[j] {
      assert Rank(ALPHABET[i]) != Rank(ALPHABET[j]);
    }
  }

  // Digits and capital letters, less the four that look like something else.
  predicate IsSymbol(c: char) {
    '0' <= c <= '9' || ('A' <= c <= 'Z' && c != 'I' && c != 'L' && c != 'O' && c != 'U')
  }

  lemma {:induction false} RankedSymbols(c: char)
    requires IsSymbol(c)
    ensures 0 <= Rank(c) < 32 && ALPHABET[Rank(c)] == c
  {
  }

  lemma {:induction false} RanksAreOrdered(c: char, d: char)
    requires IsSymbol(c) && IsSymbol(d)
    ensures Rank(c) < Rank(d) <==> c < d
  {
  }

  lemma {:induction false} SymbolsAreSymbols()
    ensures forall i :: 0 <= i < |ALPHABET| ==> IsSymbol(ALPHABET[i])
  {
  }

  // The alphabet is these symbols, in ascending order.
  lemma {:induction false} AlphabetIsOrdered(c: char, d: char)
    ensures AlphabetIndex(c) >= 0 <==> IsSymbol(c)
    ensures IsSymbol(c) && IsSymbol(d) ==> (AlphabetIndex(c) < AlphabetIndex(d) <==> c < d)
  {
    SymbolsAreRanked();
    SymbolsAreSymbols();
    if IsSymbol(c) {
      RankedSymbols(c);
      assert Rank(ALPHABET[AlphabetIndex(c)]) == AlphabetIndex(c);
    }
    if IsSymbol(c) && IsSymbol(d) {
      RankedSymbols(d);
      RanksAreOrdered(c, d);
      assert Rank(ALPHABET[AlphabetIndex(d)]) == AlphabetIndex(d);
    }
  }

  // The position of `c` in the alphabet, or -1.
  function AlphabetIndex(c: char): (i: int)
    ensures if c in ALPHABET then 0 <= i < 32 && ALPHABET[i] == c else i == -1
  {
    AlphabetHasNoRepeats();
    if c in ALPHABET then
      var i :| 0 <= i < 32 && ALPHABET[i] == c;
      i
    else -1
  }

  function Indices(data: string): (ix: seq<int>)
    ensures |ix| == |data| && forall i :: 0 <= i < |data| ==> ix[i] == AlphabetIndex(data[i])
  {
    seq(|data|, i requires 0 <= i < |data| => AlphabetIndex(data[i]))
  }

  // What the symbol with index `x` adds to the sum at position `i`: twice its index at even positions.
  function Weighted(x: int, i: nat): int {
    if i % 2 == 0 then 2 * x else x
  }

  function WeightedSum(ix: seq<int>): int {
    if ix == [] then 0 else WeightedSum(ix[..|ix| - 1]) + Weighted(ix[|ix| - 1], |ix| - 1)
  }

  function SumOf(data: string): int {
    WeightedSum(Indices(data))
  }

  // The check symbol at position `i` for a given sum; `rem_euclid` is Dafny's `%`.
  function CheckSymbol(sum: int, i: nat): char {
    ALPHABET[(sum + i * 31) % 32]
  }

  function Checksum(data: string, length: nat): (s: string)
    ensures |s| == length && forall i :: 0 <= i < length ==> s[i] == CheckSymbol(SumOf(data), i)
  {
    CheckSymbols(SumOf(data), length)
  }

  function CheckSymbols(sum: int, length: nat): (s: string)
    ensures |s| == length && forall i :: 0 <= i < length ==> s[i] == CheckSymbol(sum, i)
  {
    if length == 0 then [] else CheckSymbols(sum, length - 1) + [CheckSymbol(sum, length - 1)]
  }

  lemma {:induction false} SumStep(ix: seq<int>, i: nat)
    requires i < |ix|
    ensures WeightedSum(ix[..i + 1]) == WeightedSum(ix[..i]) + Weighted(ix[i], i)
  {
    assert ix[..i + 1][..i] == ix[..i];
  }

  lemma RemainderIs(v: int, q: int, r: int)
    requires v == 32 * q + r && 0 <= r < 32
    ensures v % 32 == r
  {
    assert !(v / 32 < q) && !(v / 32 > q);
  }

  lemma CountsDown(sum: int, i: nat)
    ensures (sum + i * 31) % 32 == (sum - i) % 32
  {
    RemainderIs(sum + i * 31, (sum - i) / 32 + i, (sum - i) % 32);
  }

  lemma IndexOfSymbol(k: nat)
    requires k < 32
    ensures AlphabetIndex(ALPHABET[k]) == k
  {
    AlphabetHasNoRepeats();
  }

  // The check symbols count down through the alphabet, cyclically, from the one that stands for the
  // sum: a checksum of any length says no more than its first symbol.
  lemma {:induction false} CheckSymbolsCountDown(sum: int, i: nat)
    ensures AlphabetIndex(CheckSymbol(sum, i)) == (sum - i) % 32
  {
    CountsDown(sum, i);
    IndexOfSymbol((sum + i * 31) % 32);
  }

  lemma {:induction false} SumJoined(a: seq<int>, b: seq<int>)
    requires |a| % 2 == 0
    ensures WeightedSum(a + b) == WeightedSum(a) + WeightedSum(b)
  {
    if b == [] {
      assert a + b == a;
    } else {
      var n := |b| - 1;
      assert (a + b)[..|a + b| - 1] == a + b[..n];
      SumJoined(a, b[..n]);
      SameParity(|a|, n);
    }
  }

  lemma SameParity(m: nat, n: nat)
    requires m % 2 == 0
    ensures (m + n) % 2 == n % 2
  {
  }

  lemma {:induction false} SumOfTwo(x: int, y: int)
    ensures WeightedSum([x]) == 2 * x && WeightedSum([x, y]) == 2 * x + y
  {
    assert [x, y][..1] == [x] && [x][..0] == [];
  }

  // The sum counts every symbol's index from the left twice and once by turns.
  lemma {:induction false} SumCountsByTurns(a: string, b: string, c: char, d: char)
    ensures SumOf("") == 0
    ensures SumOf([c]) == 2 * AlphabetIndex(c)
    ensures SumOf([c, d]) == 2 * AlphabetIndex(c) + AlphabetIndex(d)
    ensures |a| % 2 == 0 ==> SumOf(a + b) == SumOf(a) + SumOf(b)
  {
    assert Indices([c]) == [AlphabetIndex(c)] && Indices([c, d]) == [AlphabetIndex(c), AlphabetIndex(d)];
    assert Indices("") == [];
    SumOfTwo(AlphabetIndex(c), AlphabetIndex(d));
    assert Indices(a + b) == Indices(a) + Indices(b);
    if |a| % 2 == 0 {
      SumJoined(Indices(a), Indices(b));
    }
  }

  // Twice the first number, once the second, and so on by turns.
  function TurnSum(ix: seq<int>): int {
    if ix == [] then 0 else if |ix| == 1 then 2 * ix[0] else 2 * ix[0] + ix[1] + TurnSum(ix[2..])
  }

  lemma {:induction false} SumIsTurnSum(ix: seq<int>)
    ensures WeightedSum(ix) == TurnSum(ix)
  {
    if |ix| < 2 {
      assert ix == [] || ix == [ix[0]];
      SumOfTwo(if ix == [] then 0 else ix[0], 0);
    } else {
      SumIsTurnSum(ix[2..]);
      SumOfTwo(ix[0], ix[1]);
      SumJoined(ix[..2], ix[2..]);
      assert ix == ix[..2] + ix[2..] && ix[..2] == [ix[0], ix[1]];
    }
  }

  lemma {:induction false} FirstSymbol(sum: int) returns (c: char)
    ensures c == CheckSymbol(sum, 0) && AlphabetIndex(c) == sum % 32
  {
    c := CheckSymbol(sum, 0);
    CheckSymbolsCountDown(sum, 0);
  }

  lemma {:induction false} FirstSymbolIsTheSum(sum: int, symbols: string)
    requires |symbols| > 0 && symbols[0] == CheckSymbol(sum, 0)
    ensures AlphabetIndex(symbols[0]) == sum % 32
  {
    var c := FirstSymbol(sum);
  }

  // The first check symbol stands for the sum of the indices, doubled by turns from the first on, modulo 32.
  method CalculateChecksum(data: string, length: nat) returns (checksum: string)
    ensures checksum == Checksum(data, length)
    ensures |checksum| == length
    ensures length > 0 ==> AlphabetIndex(checksum[0]) == TurnSum(Indices(data)) % 32
  {
    ghost var ix := Indices(data);
    var sum := 0;
    for i := 0 to |data|
      invariant sum == WeightedSum(ix[..i])
    {
      var val := AlphabetIndex(data[i]);
      if i % 2 == 0 {
        val := val * 2;
      }
      sum := sum + val;
      SumStep(ix, i);
    }
    assert ix[..|data|] == ix;
    checksum := [];
    for i := 0 to length
      invariant checksum == CheckSymbols(sum, i)
    {
      checksum := checksum + [CheckSymbol(sum, i)];
    }
    SumIsTurnSum(ix);
    if length > 0 {
      FirstSymbolIsTheSum(sum, checksum);
    }
  }

  predicate ValidateKey(key: string, checksumLen: nat) {
    |key| >= checksumLen
    && Checksum(key[..|key| - checksumLen], checksumLen) == key[|key| - checksumLen..]
  }

  /******* What the checksum detects *******/

  // `key` is `data` followed by the check symbols `sum`.
  predicate Consists(key: string, data: string, sum: string) {
    |key| == |data| + |sum| && key[..|data|] == data && key[|data|..] == sum
  }

  lemma {:induction false} SplitsAtChecksum(key: string, data: string, sum: string)
    requires Consists(key, data, sum)
    ensures ValidateKey(key, |sum|) <==> Checksum(data, |sum|) == sum
  {
  }

  lemma {:induction false} SymbolsAgreeIff(a: int, b: int, i: nat)
    ensures CheckSymbol(a, i) == CheckSymbol(b, i) <==> a % 32 == b % 32
  {
    AlphabetHasNoRepeats();
    ShiftedRemainders(a, b, i * 31);
  }

  lemma ShiftedRemainders(a: int, b: int, c: int)
    ensures (a + c) % 32 == (b + c) % 32 <==> a % 32 == b % 32
  {
    if (a + c) % 32 == (b + c) % 32 {
      RemainderIs(a, b / 32 + (a + c) / 32 - (b + c) / 32, b % 32);
    }
    if a % 32 == b % 32 {
      RemainderIs(a + c, (b + c) / 32 + a / 32 - b / 32, (b + c) % 32);
    }
  }

  lemma {:induction false} CheckSymbolsAgreeIff(a: int, b: int, length: nat)
    requires length > 0
    ensures CheckSymbols(a, length) == CheckSymbols(b, length) <==> a % 32 == b % 32
  {
    var s, s' := CheckSymbols(a, length), CheckSymbols(b, length);
    SymbolsAgreeIff(a, b, 0);
    assert s == s' ==> s[0] == s'[0];
    if a % 32 == b % 32 {
      forall i | 0 <= i < length ensures s[i] == s'[i] {
        SymbolsAgreeIff(a, b, i);
      }
    }
  }

  // A data part and a checksum computed from other data agree exactly when the sums agree modulo 32,
  // however many check symbols there are, as long as there is one.
  lemma {:induction false} AcceptedIffSumsAgree(key: string, data: string, data': string, length: nat)
    requires length > 0 && Consists(key, data', Checksum(data, length))
    ensures ValidateKey(key, length) <==> SumOf(data) % 32 == SumOf(data') % 32
  {
    SplitsAtChecksum(key, data', Checksum(data, length));
    CheckSymbolsAgreeIff(SumOf(data), SumOf(data'), length);
  }

  // Appending the computed checksum always validates.
  lemma {:induction false} AppendedChecksumValidates(data: string, length: nat)
    ensures ValidateKey(data + Checksum(data, length), length)
  {
    SplitsAtChecksum(data + Checksum(data, length), data, Checksum(data, length));
  }

  // The valid keys are exactly those made by appending its checksum to some data.
  lemma {:induction false} ValidKeysAreDataAndChecksum(key: string, length: nat)
    ensures ValidateKey(key, length) <==> exists data :: key == data + Checksum(data, length)
  {
    if ValidateKey(key, length) {
      var data := key[..|key| - length];
      assert key == data + key[|data|..];
      assert key == data + Checksum(data, length);
    }
    if data :| key == data + Checksum(data, length) {
      AppendedChecksumValidates(data, length);
    }
  }

  // Replacing one index changes the sum by the difference of what the two add.
  lemma {:induction false} ReplacedIndex(ix: seq<int>, k: nat, x: int)
    requires k < |ix|
    ensures WeightedSum(ix[k := x]) == WeightedSum(ix) + Weighted(x - ix[k], k)
  {
    var n := |ix| - 1;
    var ix' := ix[k := x];
    if k == n {
      assert ix'[..n] == ix[..n];
    } else {
      assert ix'[..n] == ix[..n][k := x];
      ReplacedIndex(ix[..n], k, x);
    }
  }

  lemma {:induction false} SwappedIndices(ix: seq<int>, k: nat)
    requires k + 1 < |ix|
    ensures WeightedSum(ix[k := ix[k + 1]][k + 1 := ix[k]])
         == WeightedSum(ix) + if k % 2 == 0 then ix[k + 1] - ix[k] else ix[k] - ix[k + 1]
  {
    ReplacedIndex(ix, k, ix[k + 1]);
    ReplacedIndex(ix[k := ix[k + 1]], k + 1, ix[k]);
  }

  lemma {:induction false} AcceptedIffShiftVanishes(key: string, data: string, data': string, d: int, length: nat)
    requires length > 0 && Consists(key, data', Checksum(data, length))
    requires SumOf(data') == SumOf(data) + d
    ensures ValidateKey(key, length) <==> d % 32 == 0
  {
    AcceptedIffSumsAgree(key, data, data', length);
    ShiftKeepsRemainderIff(SumOf(data), d);
  }

  lemma ShiftKeepsRemainderIff(sum: int, d: int)
    ensures sum % 32 == (sum + d) % 32 <==> d % 32 == 0
  {
    if sum % 32 == (sum + d) % 32 {
      RemainderIs(d, (sum + d) / 32 - sum / 32, 0);
    }
    if d % 32 == 0 {
      RemainderIs(sum + d, sum / 32 + d / 32, sum % 32);
    }
  }

  lemma GapsThatVanish(gap: int)
    requires -32 <= gap <= 32
    ensures gap % 32 == 0 <==> gap == 0 || gap == 32 || gap == -32
    ensures 2 * gap % 32 == 0 <==> gap == 0 || gap == 32 || gap == -32 || gap == 16 || gap == -16
  {
  }

  lemma {:induction false} SubstitutionShifts(data: string, k: nat, c: char)
    requires k < |data|
    ensures SumOf(data[k := c]) == SumOf(data) + Weighted(AlphabetIndex(c) - AlphabetIndex(data[k]), k)
  {
    ReplacedIndex(Indices(data), k, AlphabetIndex(c));
    assert Indices(data[k := c]) == Indices(data)[k := AlphabetIndex(c)];
  }

  // One wrong symbol slips through exactly at an even position, for a symbol whose index is 16 away;
  // a character outside the alphabet counts as index -1 and can stand for 31 as well.
  lemma {:induction false} SubstitutionSlipsThroughIff(key: string, data: string, k: nat, c: char, length: nat)
    requires k < |data| && length > 0 && Consists(key, data[k := c], Checksum(data, length))
    ensures var gap := AlphabetIndex(c) - AlphabetIndex(data[k]);
            ValidateKey(key, length) <==>
            (gap == 0 || gap == 32 || gap == -32 || (k % 2 == 0 && (gap == 16 || gap == -16)))
  {
    var gap := AlphabetIndex(c) - AlphabetIndex(data[k]);
    SubstitutionShifts(data, k, c);
    AcceptedIffShiftVanishes(key, data, data[k := c], Weighted(gap, k), length);
    GapsThatVanish(gap);
  }

  // Within the alphabet, then: exactly the symbols 16 apart at even positions.
  lemma {:induction false} WrongSymbolSlipsThroughIff(key: string, data: string, k: nat, c: char, length: nat)
    requires k < |data| && length > 0 && Consists(key, data[k := c], Checksum(data, length))
    requires data[k] in ALPHABET && c in ALPHABET && c != data[k]
    ensures ValidateKey(key, length) <==>
            (k % 2 == 0 && (AlphabetIndex(c) - AlphabetIndex(data[k]) == 16
                            || AlphabetIndex(data[k]) - AlphabetIndex(c) == 16))
  {
    SubstitutionSlipsThroughIff(key, data, k, c, length);
    IndexIdentifies(data[k], c);
  }

  // A wrong check symbol, or several, never slips through.
  lemma {:induction false} WrongChecksumIsDetected(key: string, data: string, sum: string)
    requires Consists(key, data, sum) && sum != Checksum(data, |sum|)
    ensures !ValidateKey(key, |sum|)
  {
    SplitsAtChecksum(key, data, sum);
  }

  function Swapped(data: string, k: nat): string
    requires k + 1 < |data|
  {
    data[k := data[k + 1]][k + 1 := data[k]]
  }

  lemma {:induction false} SwapShifts(data: string, k: nat)
    requires k + 1 < |data|
    ensures var gap := AlphabetIndex(data[k + 1]) - AlphabetIndex(data[k]);
            SumOf(Swapped(data, k)) == SumOf(data) + if k % 2 == 0 then gap else -gap
  {
    var ix := Indices(data);
    SwappedIndices(ix, k);
    assert Indices(Swapped(data, k)) == ix[k := ix[k + 1]][k + 1 := ix[k]];
  }

  lemma {:induction false} SwapSlipsThroughIff(key: string, data: string, k: nat, length: nat)
    requires k + 1 < |data| && length > 0 && Consists(key, Swapped(data, k), Checksum(data, length))
    ensures var gap := AlphabetIndex(data[k + 1]) - AlphabetIndex(data[k]);
            ValidateKey(key, length) <==> gap == 0 || gap == 32 || gap == -32
  {
    var gap := AlphabetIndex(data[k + 1]) - AlphabetIndex(data[k]);
    SwapShifts(data, k);
    AcceptedIffShiftVanishes(key, data, Swapped(data, k), if k % 2 == 0 then gap else -gap, length);
    GapsThatVanish(gap);
    GapsThatVanish(-gap);
  }

  // Swapping two adjacent distinct symbols of the alphabet is always detected.
  lemma {:induction false} AdjacentSwapIsDetected(key: string, data: string, k: nat, length: nat)
    requires k + 1 < |data| && length > 0 && Consists(key, Swapped(data, k), Checksum(data, length))
    requires data[k] in ALPHABET && data[k + 1] in ALPHABET && data[k] != data[k + 1]
    ensures !ValidateKey(key, length)
  {
    SwapSlipsThroughIff(key, data, k, length);
    IndexIdentifies(data[k], data[k + 1]);
  }

  lemma IndexIdentifies(c: char, c': char)
    requires c in ALPHABET && c' in ALPHABET
    ensures 0 <= AlphabetIndex(c) && 0 <= AlphabetIndex(c')
    ensures AlphabetIndex(c) == AlphabetIndex(c') <==> c == c'
  {
    AlphabetHasNoRepeats();
  }

  /******* One wrong symbol, or one swap, anywhere in a key *******/

  lemma {:induction false} DataPartOf(key: string, length: nat)
    requires length <= |key|
    ensures var data := key[..|key| - length];
            && Consists(key, data, key[|data|..])
            && (ValidateKey(key, length) <==> key[|data|..] == Checksum(data, length))
  {
  }

  lemma {:induction false} ReplacedParts(key: string, n: nat, k: nat, c: char)
    requires n <= |key| && k < |key|
    ensures if k < n then key[k := c][..n] == key[..n][k := c] && key[k := c][n..] == key[n..]
            else key[k := c][..n] == key[..n] && key[k := c][n..] == key[n..][k - n := c]
  {
  }

  // A valid key with one symbol replaced, in its data or in its checksum, is still valid exactly when the
  // symbol is at an even position of the data and the two indices are 16 apart.
  lemma {:induction false} OneWrongSymbol(key: string, k: nat, c: char, length: nat)
    requires length > 0 && ValidateKey(key, length) && k < |key| && c != key[k]
    requires key[k] in ALPHABET && c in ALPHABET
    ensures ValidateKey(key[k := c], length) <==>
            var gap := AlphabetIndex(c) - AlphabetIndex(key[k]);
            k < |key| - length && k % 2 == 0 && (gap == 16 || gap == -16)
  {
    var n := |key| - length;
    var data := key[..n];
    DataPartOf(key, length);
    ReplacedParts(key, n, k, c);
    if k < n {
      WrongSymbolSlipsThroughIff(key[k := c], data, k, c, length);
    } else {
      var sum := key[n..][k - n := c];
      assert sum[k - n] != key[n..][k - n];
      WrongChecksumIsDetected(key[k := c], data, sum);
    }
  }

  lemma SameIndexIff(c: char, c': char, i: int)
    requires 0 <= i == AlphabetIndex(c)
    ensures i == AlphabetIndex(c') <==> c == c'
  {
    AlphabetHasNoRepeats();
  }

  lemma {:induction false} FirstSymbolIsIff(sum: int, c: char)
    ensures CheckSymbol(sum, 0) == c <==> sum % 32 == AlphabetIndex(c)
  {
    CheckSymbolsCountDown(sum, 0);
    SameIndexIff(CheckSymbol(sum, 0), c, sum % 32);
  }

  lemma {:induction false} OneSymbolChecksum(data: string, c: char)
    ensures Checksum(data, 1) == [c] <==> SumOf(data) % 32 == AlphabetIndex(c)
  {
    FirstSymbolIsIff(SumOf(data), c);
    OneSymbol(Checksum(data, 1), c);
  }

  lemma OneSymbol(s: string, c: char)
    requires |s| == 1
    ensures s == [c] <==> s[0] == c
  {
  }

  // A sum that stands for `x`, moved by `d`, stands for `y` exactly when the move makes up for the gap.
  lemma MovedSumIff(sum: int, d: int, x: int, y: int)
    requires 0 <= x < 32 && 0 <= y < 32 && sum % 32 == x
    ensures (sum + d) % 32 == y <==> (x + d - y) % 32 == 0
  {
    if (sum + d) % 32 == y {
      RemainderIs(x + d - y, (sum + d) / 32 - sum / 32, 0);
    }
    if (x + d - y) % 32 == 0 {
      RemainderIs(sum + d, sum / 32 + (x + d - y) / 32, y);
    }
  }

  lemma ThreefoldGapsVanishIff(gap: int)
    requires -32 < gap < 32
    ensures 3 * gap % 32 == 0 <==> gap == 0
  {
  }

  lemma {:induction false} SwappedSumIff(sum: int, sum': int, n: nat, x: int, y: int)
    requires 0 <= x < 32 && -1 <= y < 32 && sum % 32 == x && sum' == sum + Weighted(x - y, n)
    ensures sum' % 32 == y <==>
            y >= 0 && (x == y || (n % 2 == 1 && (x - y == 16 || x - y == -16)))
  {
    if y >= 0 {
      MovedSumIff(sum, Weighted(x - y, n), x, y);
      GapsThatVanish(x - y);
      ThreefoldGapsVanishIff(x - y);
    }
  }

  lemma {:induction false} LastSymbolShifts(data: string, d: char, c: char)
    ensures SumOf(data + [c]) == SumOf(data + [d]) + Weighted(AlphabetIndex(c) - AlphabetIndex(d), |data|)
  {
    assert (data + [d])[|data| := c] == data + [c];
    SubstitutionShifts(data + [d], |data|, c);
  }

  // The last data symbol changes places with a checksum of one symbol: the sum moves one gap, or two at
  // an even position, and the checksum a gap the other way.
  lemma {:induction false} SwapWithTheCheckSymbolIff(data: string, d: char, c: char)
    requires Checksum(data + [d], 1) == [c]
    ensures var x, y := AlphabetIndex(c), AlphabetIndex(d);
            Checksum(data + [c], 1) == [d] <==>
            y >= 0 && (x == y || (|data| % 2 == 1 && (x - y == 16 || x - y == -16)))
  {
    LastSymbolShifts(data, d, c);
    OneSymbolChecksum(data + [d], c);
    OneSymbolChecksum(data + [c], d);
    SwappedSumIff(SumOf(data + [d]), SumOf(data + [c]), |data|, AlphabetIndex(c), AlphabetIndex(d));
  }

  // With a second check symbol, which stays where it is, the sum could not have moved.
  lemma {:induction false} SecondSymbolTells(data: string, data': string, sum: string, c: char)
    requires |sum| >= 2 && sum == Checksum(data, |sum|) && c != sum[0]
    ensures Checksum(data', |sum|) != sum[0 := c]
  {
    if Checksum(data', |sum|) == sum[0 := c] {
      SymbolsAgreeIff(SumOf(data), SumOf(data'), 1);
      SymbolsAgreeIff(SumOf(data), SumOf(data'), 0);
    }
  }

  lemma {:induction false} SwapInTheDataIff(key: string, k: nat, length: nat)
    requires length > 0 && ValidateKey(key, length) && k + 1 < |key| - length
    ensures var gap := AlphabetIndex(key[k + 1]) - AlphabetIndex(key[k]);
            ValidateKey(Swapped(key, k), length) <==> gap == 0 || gap == 32 || gap == -32
  {
    var n := |key| - length;
    DataPartOf(key, length);
    assert Swapped(key, k)[..n] == Swapped(key[..n], k);
    assert Swapped(key, k)[n..] == key[n..];
    SwapSlipsThroughIff(Swapped(key, k), key[..n], k, length);
  }

  lemma {:induction false} SwapInTheChecksum(key: string, k: nat, length: nat)
    requires length > 0 && ValidateKey(key, length) && |key| - length <= k < |key| - 1 && key[k] != key[k + 1]
    ensures !ValidateKey(Swapped(key, k), length)
  {
    var n := |key| - length;
    var key' := Swapped(key, k);
    DataPartOf(key, length);
    assert key'[..n] == key[..n];
    assert key'[n..] != key[n..] by {
      assert key'[n..][k - n] != key[n..][k - n];
    }
    WrongChecksumIsDetected(key', key[..n], key'[n..]);
  }

  lemma {:induction false} SwapAcrossIsDetected(key: string, k: nat, length: nat)
    requires length >= 2 && ValidateKey(key, length) && k + 1 == |key| - length && key[k] != key[k + 1]
    ensures !ValidateKey(Swapped(key, k), length)
  {
    var n := |key| - length;
    DataPartOf(key, length);
    DataPartOf(Swapped(key, k), length);
    assert Swapped(key, k)[n..] == key[n..][0 := key[k]];
    SecondSymbolTells(key[..n], Swapped(key, k)[..n], key[n..], key[k]);
  }

  lemma {:induction false} OneCheckSymbol(key: string, data: string, d: char, c: char)
    requires key == data + [d] + [c]
    ensures ValidateKey(key, 1) <==> Checksum(data + [d], 1) == [c]
  {
    SplitsAtChecksum(key, data + [d], [c]);
  }

  lemma {:induction false} SwapAcrossIff(key: string, k: nat)
    requires ValidateKey(key, 1) && k + 2 == |key|
    ensures var x, y := AlphabetIndex(key[k + 1]), AlphabetIndex(key[k]);
            ValidateKey(Swapped(key, k), 1) <==>
            y >= 0 && (x == y || (k % 2 == 1 && (x - y == 16 || x - y == -16)))
  {
    var key' := Swapped(key, k);
    OneCheckSymbol(key, key[..k], key[k], key[k + 1]);
    OneCheckSymbol(key', key[..k], key[k + 1], key[k]);
    SwapWithTheCheckSymbolIff(key[..k], key[k], key[k + 1]);
  }

  // A valid key with two adjacent distinct symbols swapped, wherever they are, is still valid exactly when
  // its checksum is one symbol, this changed places with the last data symbol at an odd position, and
  // their indices are 16 apart. With a checksum of two symbols or more a swap is always rejected.
  lemma {:induction false} AdjacentSwapInAKeyIff(key: string, k: nat, length: nat)
    requires length > 0 && ValidateKey(key, length) && k + 1 < |key| && key[k] != key[k + 1]
    requires key[k] in ALPHABET && key[k + 1] in ALPHABET
    ensures ValidateKey(Swapped(key, k), length) <==>
            var gap := AlphabetIndex(key[k + 1]) - AlphabetIndex(key[k]);
            length == 1 && k + 2 == |key| && k % 2 == 1 && (gap == 16 || gap == -16)
  {
    IndexIdentifies(key[k], key[k + 1]);
    if k + 1 < |key| - length {
      SwapInTheDataIff(key, k, length);
    } else if k + 1 > |key| - length {
      SwapInTheChecksum(key, k, length);
    } else if length >= 2 {
      SwapAcrossIsDetected(key, k, length);
    } else {
      SwapAcrossIff(key, k);
    }
  }

  /******* Normal forms *******/

  function Upper(c: char): char {
    if 'a' <= c <= 'z' then c - 'a' + 'A' else c
  }

  predicate Separator(c: char) {
    c == '-' || c == ' '
  }

  // Uppercase, without hyphens and spaces.
  function NormalizeKey(input: string): string {
    if input == [] then []
    else (if Separator(Upper(input[0])) then [] else [Upper(input[0])]) + NormalizeKey(input[1..])
  }

  function Fold(c: char): char {
    if c == 'O' then '0' else if c == 'I' || c == 'L' then '1' else c
  }

  function FoldAll(s: string): (r: string)
    ensures |r| == |s| && forall i :: 0 <= i < |s| ==> r[i] == Fold(s[i])
  {
    if s == [] then [] else [Fold(s[0])] + FoldAll(s[1..])
  }

  function SanitizeKey(input: string): string {
    FoldAll(NormalizeKey(input))
  }

  lemma {:induction false} NormalizeFrom(input: string, i: nat, kept: string)
    requires i < |input|
    ensures var c := Upper(input[i]);
            kept + NormalizeKey(input[i..])
            == (if Separator(c) then kept else kept + [c]) + NormalizeKey(input[i + 1..])
  {
    assert input[i..][1..] == input[i + 1..];
  }

  lemma {:induction false} NormalizeJoined(a: string, b: string)
    ensures NormalizeKey(a + b) == NormalizeKey(a) + NormalizeKey(b)
  {
    if a == [] {
      assert a + b == b;
    } else {
      assert (a + b)[1..] == a[1..] + b;
      NormalizeJoined(a[1..], b);
    }
  }

  // Character by character: hyphens and spaces go, a small letter becomes the capital 32 places before it in
  // ASCII, and every other character stays.
  lemma {:induction false} NormalizesOneByOne(a: string, c: char, b: string)
    ensures NormalizeKey("") == ""
    ensures NormalizeKey(a + [c] + b)
         == NormalizeKey(a) + (if c == '-' || c == ' ' then ""
                               else if 'a' <= c <= 'z' then [(c as int - 32) as char] else [c]) + NormalizeKey(b)
  {
    NormalizeJoined(a + [c], b);
    NormalizeJoined(a, [c]);
    assert [c][1..] == [];
  }

  lemma {:induction false} SanitizeJoined(a: string, b: string)
    ensures SanitizeKey(a + b) == SanitizeKey(a) + SanitizeKey(b)
  {
    NormalizeJoined(a, b);
    FoldJoined(NormalizeKey(a), NormalizeKey(b));
  }

  // The same for sanitised keys, in which O becomes 0, and I and L become 1.
  function SanitizedSymbol(c: char): string {
    if c == '-' || c == ' ' then "" else if c == 'O' || c == 'o' then "0"
    else if c == 'I' || c == 'i' || c == 'L' || c == 'l' then "1"
    else if 'a' <= c <= 'z' then [(c as int - 32) as char] else [c]
  }

  lemma {:induction false} OneSanitized(c: char)
    ensures SanitizeKey([c]) == SanitizedSymbol(c)
  {
    assert [c][1..] == [];
    assert NormalizeKey([c]) == if Separator(Upper(c)) then [] else [Upper(c)];
  }

  lemma {:induction false} SanitizesOneByOne(a: string, c: char, b: string)
    ensures SanitizeKey("") == ""
    ensures SanitizeKey(a + [c] + b) == SanitizeKey(a) + SanitizedSymbol(c) + SanitizeKey(b)
  {
    SanitizeJoined(a + [c], b);
    SanitizeJoined(a, [c]);
    OneSanitized(c);
  }

  // `retain` on the uppercased string.
  method Normalize(input: string) returns (kept: string)
    ensures kept == NormalizeKey(input)
    ensures '-' !in kept && ' ' !in kept
  {
    NormalizedSymbols(input);
    kept := [];
    for i := 0 to |input|
      invariant NormalizeKey(input) == kept + NormalizeKey(input[i..])
    {
      NormalizeFrom(input, i, kept);
      var c := Upper(input[i]);
      if !Separator(c) {
        kept := kept + [c];
      }
    }
  }

  predicate Normal(s: string) {
    forall i :: 0 <= i < |s| ==> Upper(s[i]) == s[i] && !Separator(s[i])
  }

  lemma {:induction false} NormalizedSymbols(input: string)
    ensures Normal(NormalizeKey(input))
  {
    if input == [] {
    } else {
      NormalizedSymbols(input[1..]);
    }
  }

  lemma {:induction false} NormalIsFixed(s: string)
    requires Normal(s)
    ensures NormalizeKey(s) == s
  {
    if s == [] {
    } else {
      assert Normal(s[1..]);
      NormalIsFixed(s[1..]);
    }
  }

  lemma {:induction false} FoldsToNormal(s: string)
    requires Normal(s)
    ensures Normal(FoldAll(s)) && FoldAll(FoldAll(s)) == FoldAll(s)
    ensures forall c :: c in FoldAll(s) ==> c != 'O' && c != 'I' && c != 'L'
  {
    if s == [] {
    } else {
      assert Normal(s[1..]);
      FoldsToNormal(s[1..]);
    }
  }

  // Every typing of a key has one normal form: normalising again, or sanitising what was normalised
  // or sanitised, changes nothing more.
  lemma {:induction false} NormalFormsAreStable(input: string)
    ensures NormalizeKey(NormalizeKey(input)) == NormalizeKey(input)
    ensures SanitizeKey(NormalizeKey(input)) == SanitizeKey(input)
    ensures SanitizeKey(SanitizeKey(input)) == SanitizeKey(input)
    ensures forall c :: c in SanitizeKey(input) ==> c != 'O' && c != 'I' && c != 'L'
  {
    var n := NormalizeKey(input);
    NormalizedSymbols(input);
    NormalIsFixed(n);
    FoldsToNormal(n);
    NormalIsFixed(FoldAll(n));
  }

  lemma {:induction false} FoldsAlike(s: string, s': string)
    requires |s| == |s'| && forall i :: 0 <= i < |s| ==> Fold(Upper(s[i])) == Fold(Upper(s'[i]))
    ensures SanitizeKey(s) == SanitizeKey(s')
  {
    if s == [] {
    } else {
      FoldsAlike(s[1..], s'[1..]);
      FoldJoined(if Separator(Upper(s[0])) then [] else [Upper(s[0])], NormalizeKey(s[1..]));
      FoldJoined(if Separator(Upper(s'[0])) then [] else [Upper(s'[0])], NormalizeKey(s'[1..]));
    }
  }

  lemma {:induction false} FoldJoined(a: string, b: string)
    ensures FoldAll(a + b) == FoldAll(a) + FoldAll(b)
  {
    assert forall i :: 0 <= i < |a + b| ==> FoldAll(a + b)[i] == (FoldAll(a) + FoldAll(b))[i];
  }

  // A key typed with look-alikes is the key it looks like: O for 0, I or L for 1, in either case.
  lemma {:induction false} LookAlikesAreOneKey(s: string, k: nat)
    requires k < |s|
    ensures SanitizeKey(s[k := 'O']) == SanitizeKey(s[k := 'o']) == SanitizeKey(s[k := '0'])
    ensures SanitizeKey(s[k := 'I']) == SanitizeKey(s[k := 'l']) == SanitizeKey(s[k := 'L']) == SanitizeKey(s[k := '1'])
  {
    FoldsAlike(s[k := 'O'], s[k := 'o']);
    FoldsAlike(s[k := 'o'], s[k := '0']);
    FoldsAlike(s[k := 'I'], s[k := 'l']);
    FoldsAlike(s[k := 'l'], s[k := 'L']);
    FoldsAlike(s[k := 'L'], s[k := '1']);
  }

  predicate Plain(c: char) {
    Upper(c) == c && !Separator(c) && Fold(c) == c
  }

  lemma {:induction false} SymbolsArePlain()
    ensures |ALPHABET| == 32
    ensures forall k :: 0 <= k < 32 ==> Plain(ALPHABET[k])
  {
  }

  lemma {:induction false} PlainKeysStay(s: string)
    requires forall i :: 0 <= i < |s| ==> Plain(s[i])
    ensures SanitizeKey(s) == s
  {
    NormalIsFixed(s);
    assert FoldAll(s) == s;
  }

  // A key in the native alphabet passes through unchanged.
  lemma {:induction false} NativeKeysStay(s: string)
    requires forall i :: 0 <= i < |s| ==> s[i] in ALPHABET
    ensures SanitizeKey(s) == s
  {
    SymbolsArePlain();
    forall i | 0 <= i < |s| ensures Plain(s[i]) {
      var k :| 0 <= k < 32 && ALPHABET[k] == s[i];
    }
    PlainKeysStay(s);
  }
}
