/**
  The generator's pure part (src/messageproducer.py): a recipient is "+1"
  followed by `str` of an integer drawn from [1000000000, 9999999999]; a
  payload is `length` characters picked from `ascii_letters + digits`. The
  random draws are inputs: the integer, the length and the alphabet indices.
 */
module Messages {
  import opened Decimal

  /** What `random.randint(1000000000, 9999999999)` can return. */
  type PhoneValue = n: int | 1000000000 <= n <= 9999999999 witness 1000000000

  /** What `random.randint(1, 100)` can return. */
  type PayloadLength = n: int | 1 <= n <= 100 witness 1

  /** An index into `Alphabet`, one pick of `random.choices`. */
  type AlphabetIndex = i: int | 0 <= i < 62 witness 0

  /** The queued item: the tuple `(phone_number, message)`, in that order. */
  datatype Message = Message(phoneNumber: string, text: string)

  /** The random values one call of `create_message` consumes, in the order it consumes them. */
  datatype Draw = Draw(number: PhoneValue, length: PayloadLength, choices: seq<AlphabetIndex>) {
    /** `random.choices(..., k=length)` returns exactly `length` picks. */
    predicate Valid() {
      |choices| == length
    }
  }

  const AsciiLowercase: string := "abcdefghijklmnopqrstuvwxyz"
  const AsciiUppercase: string := "ABCDEFGHIJKLMNOPQRSTUVWXYZ"
  const AsciiDigits: string := "0123456789"
  /** `string.ascii_letters + string.digits` */
  const Alphabet: string := AsciiLowercase + AsciiUppercase + AsciiDigits

  /** The `n` consecutive code points starting at `first`. */
  function CharRange(first: char, n: nat): (s: string)
    requires first as int + n <= 0xD800
    ensures |s| == n
  {
    seq(n, i requires 0 <= i < n => (first as int + i) as char)
  }

  lemma AlphabetRanges()
    ensures Alphabet == CharRange('a', 26) + CharRange('A', 26) + CharRange('0', 10)
  {
    assert AsciiLowercase == CharRange('a', 26);
    assert AsciiUppercase == CharRange('A', 26);
    assert AsciiDigits == CharRange('0', 10);
  }

  predicate IsAlphanumeric(c: char) {
    'a' <= c <= 'z' || 'A' <= c <= 'Z' || '0' <= c <= '9'
  }

  /** The alphabet holds alphanumeric characters only, 62 of them. */
  lemma AlphabetIsAlphanumeric()
    ensures |Alphabet| == 62
    ensures forall i :: 0 <= i < |Alphabet| ==> IsAlphanumeric(Alphabet[i])
  {
    AlphabetRanges();
  }

  /** Where an alphanumeric character sits in the alphabet: every such character is in it. */
  function AlphabetIndexOf(c: char): (i: AlphabetIndex)
    requires IsAlphanumeric(c)
    ensures Alphabet[i] == c
  {
    AlphabetRanges();
    if 'a' <= c <= 'z' then c as int - 'a' as int
    else if 'A' <= c <= 'Z' then 26 + (c as int - 'A' as int)
    else 52 + (c as int - '0' as int)
  }

  /** The recipient pattern `^\+1\d{10}$`. */
  predicate IsPhoneNumber(s: string) {
    |s| == 12 && s[0] == '+' && s[1] == '1' && AllDigits(s[2..])
  }

  /** A payload as the generator makes them: 1 to 100 alphanumeric characters. */
  predicate IsPayload(s: string) {
    1 <= |s| <= 100 && forall i :: 0 <= i < |s| ==> IsAlphanumeric(s[i])
  }

  /** A message both of whose fields are well formed, with a recipient whose first digit is not 0. */
  predicate IsWellFormed(m: Message) {
    IsPhoneNumber(m.phoneNumber) && m.phoneNumber[2] != '0' && IsPayload(m.text)
  }

  /** `get_random_phone_number`, with the integer drawn by `randint` as input. */
  function GetRandomPhoneNumber(n: PhoneValue): (p: string)
    ensures IsPhoneNumber(p) && p[2] != '0'
    ensures DigitsValue(p[2..]) == n
  {
    var digits := DecimalString(n);
    assert Pow10(9) == 1000000000 && Pow10(10) == 10000000000;
    DecimalLength(n, 10);
    DecimalRoundTrip(n);
    assert ("+1" + digits)[2..] == digits;
    "+1" + digits
  }

  /** Every string of the recipient pattern whose first digit is not 0 is the recipient of exactly one draw. */
  lemma PhoneNumberOfItsValue(s: string)
    requires IsPhoneNumber(s) && s[2] != '0'
    ensures 1000000000 <= DigitsValue(s[2..]) <= 9999999999
    ensures GetRandomPhoneNumber(DigitsValue(s[2..])) == s
  {
    var digits := s[2..];
    DigitsValueBounds(digits);
    assert Pow10(9) == 1000000000 && Pow10(10) == 10000000000;
    CanonicalRoundTrip(digits);
    assert s == "+1" + digits;
  }

  /** `get_random_message`, with the length and the `random.choices` picks as inputs. */
  function GetRandomMessage(length: PayloadLength, choices: seq<AlphabetIndex>): (msg: string)
    requires |choices| == length
    ensures IsPayload(msg)
    ensures |msg| == length
  {
    AlphabetIsAlphanumeric();
    seq(length, i requires 0 <= i < length => Alphabet[choices[i]])
  }

  /** The picks that spell a payload. */
  function ChoicesOf(s: string): (choices: seq<AlphabetIndex>)
    requires forall i :: 0 <= i < |s| ==> IsAlphanumeric(s[i])
    ensures |choices| == |s|
  {
    seq(|s|, i requires 0 <= i < |s| => AlphabetIndexOf(s[i]))
  }

  /** Distinct picks give distinct payloads: the picks can be read back from the payload. */
  lemma ChoicesRoundTrip(length: PayloadLength, choices: seq<AlphabetIndex>)
    requires |choices| == length
    ensures ChoicesOf(GetRandomMessage(length, choices)) == choices
  {
    var msg := GetRandomMessage(length, choices);
    AlphabetRanges();
    forall i | 0 <= i < length
      ensures ChoicesOf(msg)[i] == choices[i]
    {
      var c := Alphabet[choices[i]];
      assert msg[i] == c;
      if choices[i] < 26 {
        assert c == CharRange('a', 26)[choices[i]];
      } else if choices[i] < 52 {
        assert c == CharRange('A', 26)[choices[i] - 26];
      } else {
        assert c == CharRange('0', 10)[choices[i] - 52];
      }
    }
  }

  /** Every payload-shaped string is produced by some draw. */
  lemma EveryPayloadIsProduced(s: string)
    requires IsPayload(s)
    ensures GetRandomMessage(|s|, ChoicesOf(s)) == s
  {
  }

  /** `create_message`: the recipient is drawn first, then the payload. */
  function CreateMessage(d: Draw): (m: Message)
    requires d.Valid()
    ensures IsWellFormed(m)
    ensures DigitsValue(m.phoneNumber[2..]) == d.number
    ensures |m.text| == d.length && ChoicesOf(m.text) == d.choices
  {
    ChoicesRoundTrip(d.length, d.choices);
    Message(GetRandomPhoneNumber(d.number), GetRandomMessage(d.length, d.choices))
  }
}
