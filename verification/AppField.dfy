/** The masked, checksummed field of the Capcom APP protocol (opensnap_app/capcom/protocol.py). */
module AppField {
  import opened Snap
  import opened Bits
  import opened AppStream

  const FIELD_MASK: Octets := [0x4D, 0x49, 0x4E, 0x41, 0x4D, 0x49, 0x4F, 0x48]

  datatype FieldError = Truncated | InvalidLength | ChecksumMismatch | TooLong

  datatype FieldResult<+T> = Good(value: T) | Bad(error: FieldError)

  function Xor(a: Byte, b: Byte): Byte {
    PowersOfTwo();
    XorFits(a, b, 8);
    BitXor(a, b)
  }

  /** The byte that masks position `index`: the mask letter and the sequence, which goes on by one a byte. */
  function Key(sequence: int, index: nat): Byte {
    Xor(FIELD_MASK[index % 8], (sequence + index) % 0x100)
  }

  function Masked(plain: Octets, sequence: int): (r: Octets)
    ensures |r| == |plain|
  {
    seq(|plain|, i requires 0 <= i < |plain| => Xor(plain[i], Key(sequence, i)))
  }

  function Sum(plain: Octets): nat {
    if plain == [] then 0 else plain[0] + Sum(plain[1..])
  }

  function Checksum(plain: Octets, sequence: int): nat {
    (Sum(plain) + sequence * 0x101) % 0x8000
  }

  function Pack(n: nat): Octets
    requires n < 0x1_0000
  {
    [n / 0x100, n % 0x100]
  }

  function EncodeField(plain: Octets, sequence: int): FieldResult<Octets> {
    if |plain| + 2 >= 0x1_0000 then Bad(TooLong)
    else Good(Pack(|plain| + 2) + Pack(Checksum(plain, sequence)) + Masked(plain, sequence))
  }

  function DecodeField(field: Octets, sequence: int): FieldResult<(Octets, nat)> {
    if |field| < 4 then Bad(Truncated)
    else
      var total := 2 + Word(field, 0);
      if total < 4 || total > |field| then Bad(InvalidLength)
      else
        var plain := Masked(field[4..total], sequence);
        if Word(field, 2) != Checksum(plain, sequence) then Bad(ChecksumMismatch) else Good((plain, total))
  }

  lemma MaskingTwice(plain: Octets, sequence: int)
    ensures Masked(Masked(plain, sequence), sequence) == plain
  {
    forall i | 0 <= i < |plain| ensures Masked(Masked(plain, sequence), sequence)[i] == plain[i] {
      XorTwice(plain[i], Key(sequence, i));
    }
  }

  /**
    A field decodes to what was encoded and reports its own size, whatever follows
    it. Its bytes are its length and its checksum, high byte first, then each byte
    masked by its mask letter and by the running sequence.
   */
  lemma DecodeOfEncode(plain: Octets, sequence: int, rest: Octets)
    requires EncodeField(plain, sequence).Good?
    ensures var b := EncodeField(plain, sequence).value;
            && |b| == |plain| + 4
            && b[0] as int * 256 + b[1] == |plain| + 2
            && b[2] as int * 256 + b[3] == (Sum(plain) + sequence * 257) % 0x8000
            && forall i :: 0 <= i < |plain| ==>
                 b[4 + i] == BitXor(plain[i], BitXor([0x4D, 0x49, 0x4E, 0x41, 0x4D, 0x49, 0x4F, 0x48][i % 8],
                                                     (sequence + i) % 256))
    ensures DecodeField(EncodeField(plain, sequence).value + rest, sequence) == Good((plain, |plain| + 4))
  {
    var b := EncodeField(plain, sequence).value + rest;
    MaskingTwice(plain, sequence);
    assert b[4..|plain| + 4] == Masked(plain, sequence);
    assert Word(b, 0) == |plain| + 2 && Word(b, 2) == Checksum(plain, sequence);
  }

  lemma WordPacksBack(b: Octets, at: nat)
    requires at + 2 <= |b|
    ensures Word(b, at) < 0x1_0000 && Pack(Word(b, at)) == b[at..at + 2]
  {
  }

  /** An accepted field is exactly what encoding its content gives. */
  lemma EncodeOfDecode(field: Octets, sequence: int)
    requires DecodeField(field, sequence).Good?
    ensures var (plain, size) := DecodeField(field, sequence).value;
            size <= |field| && EncodeField(plain, sequence) == Good(field[..size])
  {
    var (plain, size) := DecodeField(field, sequence).value;
    MaskingTwice(field[4..size], sequence);
    assert field[..size] == field[0..2] + field[2..4] + field[4..size];
    WordPacksBack(field, 0);
    WordPacksBack(field, 2);
  }

  // Several fields in a row.

  function EncodeFields(plains: seq<Octets>, sequence: int): FieldResult<Octets> {
    if plains == [] then Good([])
    else
      var first := EncodeField(plains[0], sequence);
      var rest := EncodeFields(plains[1..], sequence);
      if first.Bad? then Bad(first.error)
      else if rest.Bad? then rest
      else Good(first.value + rest.value)
  }

  function DecodeFields(b: Octets, sequence: int, n: nat): FieldResult<(seq<Octets>, Octets)> {
    if n == 0 then Good(([], b))
    else
      var first := DecodeField(b, sequence);
      if first.Bad? then Bad(first.error)
      else
        var (plain, size) := first.value;
        SizeFits(b, sequence);
        var rest := DecodeFields(b[size..], sequence, n - 1);
        if rest.Bad? then rest else Good(([plain] + rest.value.0, rest.value.1))
  }

  lemma SizeFits(b: Octets, sequence: int)
    ensures DecodeField(b, sequence).Good? ==> DecodeField(b, sequence).value.1 <= |b|
  {
  }

  lemma FieldsStart(plains: seq<Octets>, sequence: int)
    requires plains != [] && EncodeFields(plains, sequence).Good?
    ensures var first, rest := EncodeField(plains[0], sequence), EncodeFields(plains[1..], sequence);
            first.Good? && rest.Good? && EncodeFields(plains, sequence).value == first.value + rest.value
    ensures [plains[0]] + plains[1..] == plains
  {
  }

  lemma FirstFieldReadsBack(plain: Octets, sequence: int, others: Octets, rest: Octets)
    requires EncodeField(plain, sequence).Good?
    ensures var first := EncodeField(plain, sequence).value; var b := first + others + rest;
            && DecodeField(b, sequence) == Good((plain, |first|)) && |first| <= |b| && b[|first|..] == others + rest
  {
    var first := EncodeField(plain, sequence).value;
    assert first + others + rest == first + (others + rest);
    DecodeOfEncode(plain, sequence, others + rest);
  }

  /** Fields laid end to end are read back one by one, each starting where the one before says it ends. */
  lemma {:induction false} FieldsReadBack(plains: seq<Octets>, sequence: int, rest: Octets)
    requires EncodeFields(plains, sequence).Good?
    ensures DecodeFields(EncodeFields(plains, sequence).value + rest, sequence, |plains|) == Good((plains, rest))
    decreases |plains|
  {
    if plains == [] {
      assert [] + rest == rest;
    } else {
      FieldsReadBack(plains[1..], sequence, rest);
      FirstFieldReadsBack(plains[0], sequence, EncodeFields(plains[1..], sequence).value, rest);
      FieldsStart(plains, sequence);
    }
  }

  // Damage.

  lemma {:induction false} SumOfOneChange(s: Octets, i: nat, x: Byte)
    requires i < |s|
    ensures Sum(s[i := x]) == Sum(s) - s[i] + x
  {
    if i > 0 {
      SumOfOneChange(s[1..], i - 1, x);
      assert s[i := x][1..] == s[1..][i - 1 := x];
    } else {
      assert s[0 := x][1..] == s[1..];
    }
  }

  lemma MaskingOneChange(s: Octets, i: nat, x: Byte, sequence: int)
    requires i < |s|
    ensures Masked(s[i := x], sequence) == Masked(s, sequence)[i := Xor(x, Key(sequence, i))]
  {
  }

  lemma ChecksumsDiffer(a: nat, b: nat, k: int)
    requires 0 < b - a < 0x8000 || 0 < a - b < 0x8000
    ensures (a + k) % 0x8000 != (b + k) % 0x8000
  {
  }

  /** Changing any one masked byte of an accepted field makes it refused. */
  lemma OneDamagedByteIsRefused(field: Octets, sequence: int, i: nat, x: Byte)
    requires DecodeField(field, sequence).Good?
    requires 4 <= i < DecodeField(field, sequence).value.1 <= |field| && x != field[i]
    ensures DecodeField(field[i := x], sequence) == Bad(ChecksumMismatch)
  {
    var (plain, size) := DecodeField(field, sequence).value;
    var key := Key(sequence, i - 4);
    XorTwice(x, key);
    XorTwice(field[i], key);
    DamageShows(field, sequence, i, x, size);
  }

  lemma DamageShows(field: Octets, sequence: int, i: nat, x: Byte, size: nat)
    requires 4 <= i < size <= |field| && size == 2 + Word(field, 0)
    requires Word(field, 2) == Checksum(Masked(field[4..size], sequence), sequence)
    requires Xor(x, Key(sequence, i - 4)) != Xor(field[i], Key(sequence, i - 4))
    ensures DecodeField(field[i := x], sequence) == Bad(ChecksumMismatch)
  {
    hide Key, Xor, BitXor;
    var plain, y := Masked(field[4..size], sequence), Xor(x, Key(sequence, i - 4));
    var damaged := field[i := x];
    assert damaged[4..size] == field[4..size][i - 4 := x];
    MaskingOneChange(field[4..size], i - 4, x, sequence);
    SumOfOneChange(plain, i - 4, y);
    ChecksumsDiffer(Sum(plain), Sum(plain[i - 4 := y]), sequence * 0x101);
    assert Word(damaged, 0) == Word(field, 0) && Word(damaged, 2) == Word(field, 2);
  }
}
