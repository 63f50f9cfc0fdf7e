/**
 Moving a cycle count from a measured thread to the driver: the count is cut into message
 words on one side and put together again on the other.
 */
module Transport {
  import opened Modular

  function Pow(b: nat, e: nat): nat { if e == 0 then 1 else Pow(b, e - 1) * b }

  /** The words of v in order of decreasing weight, `length` of them, each below `word`. */
  function Digits(v: nat, length: nat, word: nat): (d: seq<nat>)
    requires word > 0
    ensures |d| == length
    ensures forall i :: 0 <= i < length ==> d[i] < word
    decreases length
  {
    if length == 0 then [] else Digits(High(v, word), length - 1, word) + [Low(v, word)]
  }

  function Value(words: seq<nat>, word: nat): nat {
    if words == [] then 0 else Value(words[..|words| - 1], word) * word + words[|words| - 1]
  }

  /** The code shifts by a word only if there is more than one. */
  function ShiftFactor(length: nat, word: nat): nat { if length > 1 then word else 1 }

  /** Filling the message registers, last one first. */
  method SendResult(registers: array<nat>, length: nat, word: nat, result: nat)
    requires length <= registers.Length && word > 0
    modifies registers
    ensures registers[..length] == Digits(result, length, word)
    ensures registers[length..] == old(registers[length..])
  {
    var factor := ShiftFactor(length, word);
    var rest: nat := result;
    var i: nat := length;
    while i > 0
      invariant i <= length
      invariant |registers[i..length]| == length - i
      invariant Digits(result, length, word) == Digits(rest, i, word) + registers[i..length]
      invariant registers[length..] == old(registers[length..])
    {
      ghost var tail := registers[i..length];
      i := i - 1;
      registers[i] := Low(rest, word);
      assert registers[i..length] == [Low(rest, word)] + tail;
      rest := High(rest, factor);
      assert i == 0 || factor == word;
    }
  }

  lemma OneMoreWord(v: nat, factor: nat, x: nat, range: nat)
    requires range > 0
    ensures (v % range * factor % range + x) % range == (v * factor + x) % range
  {
    var r := v % range;
    assert v == (v / range) * range + r;
    var q := v / range * factor;
    assert v * factor == r * factor + q * range;
    ModuloShift(r * factor + x, q, range);
    var p := r * factor;
    assert p == (p / range) * range + p % range;
    ModuloShift(p % range + x, p / range, range);
  }

  /** Reassembly in a counter that holds the values below `range`. */
  method GetResult(registers: array<nat>, length: nat, word: nat, range: nat) returns (result: nat)
    requires length <= registers.Length && word > 0 && range > 0
    ensures result == Value(registers[..length], word) % range
  {
    var factor := ShiftFactor(length, word);
    result := 0;
    for i := 0 to length
      invariant result == Value(registers[..i], word) % range
    {
      ghost var v := Value(registers[..i], word);
      assert registers[..i + 1][..i] == registers[..i];
      assert v * factor == v * word by { if length == 1 { assert v == 0; } }
      OneMoreWord(v, factor, registers[i], range);
      result := result * factor % range;
      result := (result + registers[i]) % range;
    }
  }

  lemma Distribute(q: int, p: int, r: int, word: int)
    ensures (q * p + r) * word == q * (p * word) + r * word
  {
    assert (q * p + r) * word == (q * p) * word + r * word;
    assert (q * p) * word == q * (p * word);
  }

  lemma DigitsFit(p: nat, r: int, word: nat, d: int, x: int)
    requires word > 0 && 0 <= r < p && d == p * word && x == r * word
    ensures 0 <= x && x + word <= d
  {
    ProductMonotone(word, r + 1, p);
    ProductMonotone(word, 0, r);
    assert word * (r + 1) == x + word;
  }

  lemma RecombineParts(v: nat, word: nat, p: nat, q: int, r: int, low: nat)
    requires word > 0 && p > 0 && 0 <= r < p && low < word
    requires v == (q * p + r) * word + low
    ensures p * word > 0
    ensures r * word + low == v % (p * word)
  {
    Distribute(q, p, r, word);
    DigitsFit(p, r, word, p * word, r * word);
    DivideBy(v, p * word, q, r * word + low);
  }

  lemma Recombine(v: nat, word: nat, p: nat)
    requires word > 0 && p > 0
    ensures p * word > 0
    ensures High(v, word) % p * word + Low(v, word) == v % (p * word)
  {
    var u := High(v, word);
    HighLow(v, word);
    assert u == (u / p) * p + u % p;
    RecombineParts(v, word, p, u / p, u % p, Low(v, word));
  }

  /** What is put together is the count modulo what `length` words can hold. */
  lemma {:induction false} ValueOfDigits(v: nat, length: nat, word: nat)
    requires word > 0
    ensures Pow(word, length) > 0
    ensures Value(Digits(v, length, word), word) == v % Pow(word, length)
    decreases length
  {
    if length > 0 {
      var p: nat, u: nat := Pow(word, length - 1), High(v, word);
      ValueOfDigits(u, length - 1, word);
      var d := Digits(v, length, word);
      assert d[..length - 1] == Digits(u, length - 1, word);
      Recombine(v, word, p);
    }
  }

  /** One transfer: a count arrives unchanged exactly when it fits the words sent. With a
      counter of `length` words this is every count. */
  method Transfer(registers: array<nat>, length: nat, word: nat, range: nat, v: nat) returns (r: nat)
    requires length <= registers.Length && word > 0 && Pow(word, length) <= range
    modifies registers
    ensures Pow(word, length) > 0 && r == v % Pow(word, length)
    ensures r == v <==> v < Pow(word, length)
  {
    SendResult(registers, length, word, v);
    ValueOfDigits(v, length, word);
    var d := Digits(v, length, word);
    SmallModulo(Value(d, word), range);
    r := GetResult(registers, length, word, range);
    if v < Pow(word, length) { SmallModulo(v, Pow(word, length)); }
  }

  /** The same statement on values, for every count, word count and word size. */
  lemma RoundTrip(v: nat, length: nat, word: nat, range: nat)
    requires word > 0 && Pow(word, length) <= range
    ensures range > 0
    ensures Value(Digits(v, length, word), word) % range == v <==> v < Pow(word, length)
  {
    ValueOfDigits(v, length, word);
    SmallModulo(Value(Digits(v, length, word), word), range);
    if v < Pow(word, length) { SmallModulo(v, Pow(word, length)); }
  }
}
