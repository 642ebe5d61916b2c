/** `SparkChat.generate_random_id`: 28 characters, each drawn by
    `secrets.choice` from `string.ascii_letters + string.digits`.
    The entropy source is the parameter `draw`: the i-th call of
    `secrets.choice` picks the character at index `draw(i) % 62`. */
module RandomId {

  /** The `n` ASCII characters from `first` on, in code-point order. */
  function AsciiRun(first: char, n: nat): (r: string)
    requires first as int + n <= 128
    ensures |r| == n
    ensures forall i :: 0 <= i < n ==> r[i] as int == first as int + i
  {
    seq(n, i requires 0 <= i < n => (first as int + i) as char)
  }

  /** `string.ascii_lowercase`. */
  const Lowercase: string := AsciiRun('a', 26)

  /** `string.ascii_uppercase`. */
  const Uppercase: string := AsciiRun('A', 26)

  /** `string.digits`. */
  const Digits: string := AsciiRun('0', 10)

  /** `string.ascii_letters + string.digits`, that is
      "abcdefghijklmnopqrstuvwxyzABCDEFGHIJKLMNOPQRSTUVWXYZ0123456789". */
  const Alphabet: string := Lowercase + Uppercase + Digits

  const IdLength: nat := 28

  predicate IsAsciiLetterOrDigit(c: char)
  {
    'a' <= c <= 'z' || 'A' <= c <= 'Z' || '0' <= c <= '9'
  }

  function GenerateRandomId(draw: nat -> nat): (id: string)
    ensures |id| == IdLength
    ensures forall i :: 0 <= i < |id| ==> IsAsciiLetterOrDigit(id[i])
  {
    AlphabetChars();
    seq(IdLength, i requires 0 <= i => Alphabet[draw(i) % |Alphabet|])
  }

  /** The alphabet holds exactly the ASCII letters and digits. */
  lemma AlphabetChars()
    ensures |Alphabet| == 62
    ensures forall i :: 0 <= i < |Alphabet| ==> IsAsciiLetterOrDigit(Alphabet[i])
    ensures Alphabet[0] == 'a' && Alphabet[25] == 'z' && Alphabet[26] == 'A'
    ensures Alphabet[51] == 'Z' && Alphabet[52] == '0' && Alphabet[61] == '9'
  {
    forall i | 0 <= i < |Alphabet| ensures IsAsciiLetterOrDigit(Alphabet[i]) {
      if i < 26 {
        assert Alphabet[i] == Lowercase[i];
      } else if i < 52 {
        assert Alphabet[i] == Uppercase[i - 26];
      } else {
        assert Alphabet[i] == Digits[i - 52];
      }
    }
  }

  /** Position of an ASCII letter or digit in the alphabet. */
  function IndexIn(c: char): (k: nat)
    requires IsAsciiLetterOrDigit(c)
    ensures k < |Alphabet| && Alphabet[k] == c
  {
    if 'a' <= c <= 'z' then
      var k := c as int - 'a' as int;
      assert Alphabet[k] == Lowercase[k];
      k
    else if 'A' <= c <= 'Z' then
      var k := c as int - 'A' as int;
      assert Alphabet[26 + k] == Uppercase[k];
      26 + k
    else
      var k := c as int - '0' as int;
      assert Alphabet[52 + k] == Digits[k];
      52 + k
  }

  /** The i-th character of the id is the i-th draw's pick. */
  lemma IdAt(draw: nat -> nat, i: nat)
    requires i < IdLength
    ensures GenerateRandomId(draw)[i] == Alphabet[draw(i) % |Alphabet|]
  {
  }

  /** Every string of 28 ASCII letters and digits is an id some entropy
      source produces, so the ids are exactly those strings. */
  lemma EveryIdReachable(target: string)
    requires |target| == IdLength
    requires forall i :: 0 <= i < |target| ==> IsAsciiLetterOrDigit(target[i])
    ensures exists draw :: GenerateRandomId(draw) == target
  {
    var draw := (i: nat) => if i < |target| then IndexIn(target[i]) else 0;
    var id := GenerateRandomId(draw);
    forall i | 0 <= i < IdLength ensures id[i] == target[i] {
      IdAt(draw, i);
      AlphabetChars();
      var k := IndexIn(target[i]);
      assert draw(i) == k;
    }
    assert id == target;
  }
}
