/**
 What the functions behind the rounds are, in values: truth tables, single bits,
 and steps of the standards' own example, the message "abc".
 */
module Standards {
  import opened Algorithms
  import opened Checksums
  import opened Words
  import Md5
  import Sha1
  import Sha512

  // ---- bitwise functions ------------------------------------------------------

  /** The eight combinations of three bits, one in each of the low eight places:
      the answer is a truth table. Selection, majority and parity are CA, E8 and
      96. */
  lemma Sha1Tables(t: nat)
    requires t < 80
    ensures Sha1.F(t, 0xf0, 0xcc, 0xaa) == if t < 20 then 0xca else if 40 <= t < 60 then 0xe8 else 0x96
  {
    assert Ch(0xf0, 0xcc, 0xaa) == 0xca && Maj(0xf0, 0xcc, 0xaa) == 0xe8 && Parity(0xf0, 0xcc, 0xaa) == 0x96;
    hide Ch, Maj, Parity;
  }

  lemma Md5Tables(i: nat)
    requires i < Md5.STEPS
    ensures Md5.F(i, 0xf0, 0xcc, 0xaa) & 0xff
      == if i < 16 then 0xca else if i < 32 then 0xe4 else if i < 48 then 0x96 else 0x39
  {
    assert Ch(0xf0, 0xcc, 0xaa) == 0xca && Md5.G(0xf0, 0xcc, 0xaa) == 0xe4 && Parity(0xf0, 0xcc, 0xaa) == 0x96;
    assert Md5.I(0xf0, 0xcc, 0xaa) & 0xff == 0x39;
    hide Ch, Parity, Md5.G, Md5.I;
  }

  /** Where the four functions of SHA-512 send the lowest bit and the highest. */
  lemma Sha512Bits()
    ensures Sha512.Sum0(1) == 0x10_4200_0000 && Sha512.Sum1(1) == 0x4_4000_0080_0000
    ensures Sha512.Sigma0(1) == 0x8100_0000_0000_0000 && Sha512.Sigma1(1) == 0x2000_0000_0008
    ensures Sha512.Sigma0(0x8000_0000_0000_0000) == 0x4180_0000_0000_0000
    ensures Sha512.Sigma1(0x8000_0000_0000_0000) == 0x200_1000_0000_0004
  {
  }

  /** How far each step of MD5 rotates. */
  lemma Md5Shifts(i: nat)
    requires i < Md5.STEPS
    ensures i < 16 ==>
      Md5.Shift(i) == if i % 4 == 0 then 7 else if i % 4 == 1 then 12 else if i % 4 == 2 then 17 else 22
    ensures 16 <= i < 32 ==>
      Md5.Shift(i) == if i % 4 == 0 then 5 else if i % 4 == 1 then 9 else if i % 4 == 2 then 14 else 20
    ensures 32 <= i < 48 ==>
      Md5.Shift(i) == if i % 4 == 0 then 4 else if i % 4 == 1 then 11 else if i % 4 == 2 then 16 else 23
    ensures 48 <= i ==>
      Md5.Shift(i) == if i % 4 == 0 then 6 else if i % 4 == 1 then 10 else if i % 4 == 2 then 15 else 21
  {
    assert i / 16 in {0, 1, 2, 3} && i % 4 in {0, 1, 2, 3};
  }

  // ---- steps of the example ---------------------------------------------------

  /** SHA-1 of "abc": the first round of each kind, the last one, and the last word
      of the schedule. */
  lemma Sha1Steps()
    ensures Sha1.Round(0, Sha1.Start([0x67452301, 0xefcdab89, 0x98badcfe, 0x10325476, 0xc3d2e1f0]),
                       0x5a827999, 0x61626380)
      == Sha1.Regs(0x0116fc33, 0x67452301, 0x7bf36ae2, 0x98badcfe, 0x10325476)
    ensures Sha1.Round(20, Sha1.Regs(0xfd9e1d7d, 0xdc64901d, 0x20aa99ca, 0xd3a49608, 0xc82f758b),
                       0x6ed9eba1, 0)
      == Sha1.Regs(0x1a37b0ca, 0xfd9e1d7d, 0x77192407, 0x20aa99ca, 0xd3a49608)
    ensures Sha1.Round(40, Sha1.Regs(0x32de1cba, 0x4c986405, 0xf718e5cf, 0x03d447f6, 0xf72eec32),
                       0x8f1bbcdc, 0xd2e138c4)
      == Sha1.Regs(0xfc87dedf, 0x32de1cba, 0x53261901, 0xf718e5cf, 0x03d447f6)
    ensures Sha1.Round(79, Sha1.Regs(0x5738d5e1, 0x860d21cc, 0x681e6df6, 0xd8fdf6ad, 0xd7b9da25),
                       0xca62c1d6, 0x822e0879)
      == Sha1.Regs(0x42541b35, 0x5738d5e1, 0x21834873, 0x681e6df6, 0xd8fdf6ad)
    ensures Sha1.Expand(0xe6e60b69, 0x458546f4, 0x000f0000, 0x627b49a1) == 0x822e0879
  {
  }

  /** The initial state and that after the last round, added word by word. */
  lemma Sha1Answer()
    ensures Sha1.Chained([0x67452301, 0xefcdab89, 0x98badcfe, 0x10325476, 0xc3d2e1f0],
                         Sha1.Regs(0x42541b35, 0x5738d5e1, 0x21834873, 0x681e6df6, 0xd8fdf6ad))
      == [0xa9993e36, 0x4706816a, 0xba3e2571, 0x7850c26c, 0x9cd0d89d]
  {
  }

  /** MD5 of "abc": the first step of each round, and the last one. */
  lemma Md5Steps()
    ensures Md5.Round(0, Md5.Start([0x67452301, 0xefcdab89, 0x98badcfe, 0x10325476]), 0x80636261, 0xd76aa478)
      == Md5.Regs(0x10325476, 0xd6d117b4, 0xefcdab89, 0x98badcfe)
    ensures Md5.Round(16, Md5.Regs(0xdda9b9a6, 0x72aff2e0, 0xe396856b, 0xa1051895), 0, 0xf61e2562)
      == Md5.Regs(0xa1051895, 0x3e9e9126, 0x72aff2e0, 0xe396856b)
    ensures Md5.Round(32, Md5.Regs(0x790a77fb, 0x726342d3, 0xa62884aa, 0x9f47e4f8), 0, 0xfffa3942)
      == Md5.Regs(0x9f47e4f8, 0xb3707ebf, 0x726342d3, 0xa62884aa)
    ensures Md5.Round(48, Md5.Regs(0x7f2e507b, 0x7beb9700, 0x8fae6399, 0x99d9679d), 0x80636261, 0xf4292244)
      == Md5.Regs(0x99d9679d, 0x7b201df8, 0x7beb9700, 0x8fae6399)
    ensures Md5.Round(63, Md5.Regs(0x7327d604, 0xe484b9d8, 0x624d8cb2, 0x310ade8f), 0, 0xeb86d391)
      == Md5.Regs(0x310ade8f, 0xc08226b3, 0xe484b9d8, 0x624d8cb2)
  {
  }

  lemma Md5Answer()
    ensures Md5.Chained([0x67452301, 0xefcdab89, 0x98badcfe, 0x10325476],
                        Md5.Regs(0x310ade8f, 0xc08226b3, 0xe484b9d8, 0x624d8cb2))
      == [0x98500190, 0xb04fd23c, 0x7d3f96d6, 0x727fe128]
  {
  }

  /** SHA-512 of "abc": the first and last rounds and the last word of the
      schedule. */
  lemma Sha512Steps()
    ensures Sha512.Round(Sha512.Start([0x6a09e667f3bcc908, 0xbb67ae8584caa73b, 0x3c6ef372fe94f82b, 0xa54ff53a5f1d36f1,
                                     0x510e527fade682d1, 0x9b05688c2b3e6c1f, 0x1f83d9abfb41bd6b, 0x5be0cd19137e2179]),
                         0x428a2f98d728ae22, 0x6162638000000000)
      == Sha512.Regs(0xf6afceb8bcfcddf5, 0x6a09e667f3bcc908, 0xbb67ae8584caa73b, 0x3c6ef372fe94f82b,
                     0x58cb02347ab51f91, 0x510e527fade682d1, 0x9b05688c2b3e6c1f, 0x1f83d9abfb41bd6b)
    ensures Sha512.Round(Sha512.Regs(0x10d9c4c4295599f6, 0xd67806db8b148677, 0x654ef9abec389ca9, 0xc8960e6be864b916,
                                     0x9bb4d39778c07f9e, 0x25c96a7768fb2aa3, 0xceb9fc3691ce8326, 0x995019a6ff3ba3de),
                         0x6c44198c4a475817, 0x92aeeed1a7bcf7d2)
      == Sha512.Regs(0x73a54f399fa4b1b2, 0x10d9c4c4295599f6, 0xd67806db8b148677, 0x654ef9abec389ca9,
                     0xd08446aa79693ed7, 0x9bb4d39778c07f9e, 0x25c96a7768fb2aa3, 0xceb9fc3691ce8326)
    ensures Sha512.Expand(0x464af5671d71c12e, 0xf63d4265cc1c5a78, 0x5099c3add79f90ec, 0xcc4918b5949206bb)
      == 0x92aeeed1a7bcf7d2
  {
  }

  lemma Sha512Answer()
    ensures Sha512.Chained([0x6a09e667f3bcc908, 0xbb67ae8584caa73b, 0x3c6ef372fe94f82b, 0xa54ff53a5f1d36f1,
                            0x510e527fade682d1, 0x9b05688c2b3e6c1f, 0x1f83d9abfb41bd6b, 0x5be0cd19137e2179],
                           Sha512.Regs(0x73a54f399fa4b1b2, 0x10d9c4c4295599f6, 0xd67806db8b148677, 0x654ef9abec389ca9,
                                       0xd08446aa79693ed7, 0x9bb4d39778c07f9e, 0x25c96a7768fb2aa3, 0xceb9fc3691ce8326))
      == [0xddaf35a193617aba, 0xcc417349ae204131, 0x12e6fa4e89a97ea2, 0x0a9eeee64b55d39a,
          0x2192992a274fc1a8, 0x36ba3c23a3feebbd, 0x454d4423643ce80e, 0x2a9ac94fa54ca49f]
  {
  }

  /** Which words of the block the schedules take for their seventeenth. */
  lemma Schedules(m: seq<Word>)
    requires |m| == WORDS_PER_BLOCK
    ensures Sha1.W(m, 16) == Sha1.Expand(m[13], m[8], m[2], m[0])
    ensures Sha512.W(m, 16) == Sha512.Expand(m[14], m[9], m[1], m[0])
  {
    hide Sha1.Expand, Sha512.Expand;
  }
}
