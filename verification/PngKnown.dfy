/** What every PNG file is known by: its signature, its chunks' names, and its last twelve bytes. */
module PngKnown {
  import opened Common
  import opened Crc32
  import opened Png

  /** A length or a side is read highest byte first, and written as it is read. */
  lemma NumbersAreBigEndian(s: Bytes)
    requires |s| == 4
    ensures Number(s) == ((OfByte(s[0]) * 256 + OfByte(s[1])) * 256 + OfByte(s[2])) * 256 + OfByte(s[3])
    ensures BigEndian(0x01020304) == [1, 2, 3, 4]
  {
    assert 0x01020304 / 0x1000000 == 1 && 0x01020304 / 0x10000 % 256 == 2 && 0x01020304 / 0x100 % 256 == 3 && 0x01020304 % 256 == 4;
  }

  /** The four bytes of a check read as a number, highest first, are the check. */
  lemma CheckIsBigEndian(c: bv32)
    ensures var s := CheckBytes(c);
            && s[0] == ((c >> 24) & 0xff) as bv8 && s[1] == ((c >> 16) & 0xff) as bv8
            && s[2] == ((c >> 8) & 0xff) as bv8 && s[3] == (c & 0xff) as bv8
  {
    var one, two, three := LowBytes(Above(c), 3), LowBytes(Above(Above(c)), 2), LowBytes(Above(Above(Above(c))), 1);
    assert LowBytes(c, 4) == [LowByte(c)] + one;
  }

  // -- The last chunk, byte by byte -------------------------------------------------------------------------------------------------------

  lemma EightTurns(c: bv32)
    ensures Turns(c, 8) == Turn(Turn(Turn(Turn(Turn(Turn(Turn(Turn(c))))))))
  {
    hide Turn;
    var d := Turn(Turn(Turn(Turn(c))));
    assert Turns(c, 8) == Turns(d, 4);
  }

  lemma FirstTaken()
    ensures Take(0xffffffff, 0x49) == 0x22fde946
  {
    assert Plus(0xffffffff, Wide(0x49)) == 0xffffffb6;
    assert Turn(0xffffffb6) == 0x7fffffdb;
    assert Turn(0x7fffffdb) == 0xd2477ccd;
    assert Turn(0xd2477ccd) == 0x849b3d46;
    assert Turn(0x849b3d46) == 0x424d9ea3;
    assert Turn(0x424d9ea3) == 0xcc9e4c71;
    assert Turn(0xcc9e4c71) == 0x8bf7a518;
    assert Turn(0x8bf7a518) == 0x45fbd28c;
    assert Turn(0x45fbd28c) == 0x22fde946;
    EightTurns(0xffffffb6);
    hide Turn, Plus, Turns;
  }

  lemma SecondTaken()
    ensures Take(0x22fde946, 0x45) == 0x992bac53
  {
    assert Plus(0x22fde946, Wide(0x45)) == 0x22fde903;
    assert Turn(0x22fde903) == 0xfcc677a1;
    assert Turn(0xfcc677a1) == 0x93dbb8f0;
    assert Turn(0x93dbb8f0) == 0x49eddc78;
    assert Turn(0x49eddc78) == 0x24f6ee3c;
    assert Turn(0x24f6ee3c) == 0x127b771e;
    assert Turn(0x127b771e) == 0x093dbb8f;
    assert Turn(0x093dbb8f) == 0xe9265ee7;
    assert Turn(0xe9265ee7) == 0x992bac53;
    EightTurns(0x22fde903);
    hide Turn, Plus, Turns;
  }

  lemma ThirdTaken()
    ensures Take(0x992bac53, 0x4e) == 0x639f4775
  {
    assert Plus(0x992bac53, Wide(0x4e)) == 0x992bac1d;
    assert Turn(0x992bac1d) == 0xa12d552e;
    assert Turn(0xa12d552e) == 0x5096aa97;
    assert Turn(0x5096aa97) == 0xc5f3d66b;
    assert Turn(0xc5f3d66b) == 0x8f416815;
    assert Turn(0x8f416815) == 0xaa18372a;
    assert Turn(0xaa18372a) == 0x550c1b95;
    assert Turn(0x550c1b95) == 0xc73e8eea;
    assert Turn(0xc73e8eea) == 0x639f4775;
    EightTurns(0x992bac1d);
    hide Turn, Plus, Turns;
  }

  lemma LastTaken()
    ensures Take(0x639f4775, 0x44) == 0x51bd9f7d
  {
    assert Plus(0x639f4775, Wide(0x44)) == 0x639f4731;
    assert Turn(0x639f4731) == 0xdc7720b8;
    assert Turn(0xdc7720b8) == 0x6e3b905c;
    assert Turn(0x6e3b905c) == 0x371dc82e;
    assert Turn(0x371dc82e) == 0x1b8ee417;
    assert Turn(0x1b8ee417) == 0xe07ff12b;
    assert Turn(0xe07ff12b) == 0x9d877bb5;
    assert Turn(0x9d877bb5) == 0xa37b3efa;
    assert Turn(0xa37b3efa) == 0x51bd9f7d;
    EightTurns(0x639f4731);
    hide Turn, Plus, Turns;
  }

  /** The end of every PNG file there is: its length, its name and its check. */
  lemma TheEndIsWellKnown()
    ensures Chunk(IEND, []) == Some([0, 0, 0, 0, 0x49, 0x45, 0x4e, 0x44, 0xae, 0x42, 0x60, 0x82])
  {
    hide Take, CheckBytes, Feed;
    EndCheck();
    NoneCounted();
    CheckIsBigEndian(0xae426082);
    assert CheckBytes(0xae426082) == [0xae, 0x42, 0x60, 0x82];
    assert IEND + [] == [0x49, 0x45, 0x4e, 0x44];
    hide BigEndian, Crc;
    var none: Bytes := [];
    assert |none| == 0 && BigEndian(|none|) == [0, 0, 0, 0] && |none| < LIMIT;
    var end: Bytes := [0, 0, 0, 0] + [0x49, 0x45, 0x4e, 0x44] + [0xae, 0x42, 0x60, 0x82];
    assert Chunk(IEND, none) == Some(end);
    assert end == [0, 0, 0, 0, 0x49, 0x45, 0x4e, 0x44, 0xae, 0x42, 0x60, 0x82];
  }

  lemma EndCheck()
    ensures Crc([0x49, 0x45, 0x4e, 0x44]) == 0xae426082
  {
    FirstTaken();
    SecondTaken();
    ThirdTaken();
    LastTaken();
    FedFour(0x49, 0x45, 0x4e, 0x44);
    hide Take, Feed;
  }

  lemma NoneCounted()
    ensures BigEndian(0) == [0, 0, 0, 0]
  {
  }

  lemma FedFour(a: bv8, b: bv8, c: bv8, d: bv8)
    ensures Feed(ONES, [a, b, c, d]) == Take(Take(Take(Take(ONES, a), b), c), d)
  {
    hide Take;
    FedOne(ONES, a, [b, c, d]);
    var one := Take(ONES, a);
    FedOne(one, b, [c, d]);
    var two := Take(one, b);
    FedOne(two, c, [d]);
    FedOne(Take(two, c), d, []);
    assert [a] + [b, c, d] == [a, b, c, d] && [b] + [c, d] == [b, c, d] && [c] + [d] == [c, d] && [d] + [] == [d];
  }

  lemma FedOne(r: bv32, b: bv8, rest: Bytes)
    ensures Feed(r, [b] + rest) == Feed(Take(r, b), rest)
  {
    hide Take;
    assert ([b] + rest)[1..] == rest;
  }

  // -- Names ---------------------------------------------------------------------------------------------------------------------

  /** Four letters as a buffer has them, a byte each. */
  function Letters(a: char, b: char, c: char, d: char): (bytes: Bytes) {
    [ToByte(a as int), ToByte(b as int), ToByte(c as int), ToByte(d as int)]
  }

  /** The chunks are named by their letters, and so is the format. */
  lemma NamesAreAscii()
    ensures IHDR == Letters('I', 'H', 'D', 'R') && IDAT == Letters('I', 'D', 'A', 'T') && IEND == Letters('I', 'E', 'N', 'D')
    ensures SIGNATURE[..4] == [137] + Letters('P', 'N', 'G', 'x')[..3] && SIGNATURE[4..] == [13, 10, 26, 10]
  {
    CodesAre();
    assert ToByte(73) == 0x49 && ToByte(72) == 0x48 && ToByte(68) == 0x44 && ToByte(82) == 0x52 && ToByte(65) == 0x41;
    assert ToByte(84) == 0x54 && ToByte(69) == 0x45 && ToByte(78) == 0x4e && ToByte(80) == 0x50 && ToByte(71) == 0x47;
    hide ToByte;
  }

  lemma CodesAre()
    ensures 'I' as int == 73 && 'H' as int == 72 && 'D' as int == 68 && 'R' as int == 82 && 'A' as int == 65
    ensures 'T' as int == 84 && 'E' as int == 69 && 'N' as int == 78 && 'P' as int == 80 && 'G' as int == 71
  {
  }
}
