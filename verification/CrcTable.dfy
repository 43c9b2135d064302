/** The feedback table of `src/common/crc32.c`, and the proof that each entry is the combination
    of the eight entries whose index is a power of two. */
module CrcTable {

  // The feedback table, in 16 blocks of 16 entries.
  const BLOCK0: seq<bv32> := [
    0x00000000, 0x77073096, 0xee0e612c, 0x990951ba, 0x076dc419, 0x706af48f, 0xe963a535, 0x9e6495a3,
    0x0edb8832, 0x79dcb8a4, 0xe0d5e91e, 0x97d2d988, 0x09b64c2b, 0x7eb17cbd, 0xe7b82d07, 0x90bf1d91
  ]
  const BLOCK1: seq<bv32> := [
    0x1db71064, 0x6ab020f2, 0xf3b97148, 0x84be41de, 0x1adad47d, 0x6ddde4eb, 0xf4d4b551, 0x83d385c7,
    0x136c9856, 0x646ba8c0, 0xfd62f97a, 0x8a65c9ec, 0x14015c4f, 0x63066cd9, 0xfa0f3d63, 0x8d080df5
  ]
  const BLOCK2: seq<bv32> := [
    0x3b6e20c8, 0x4c69105e, 0xd56041e4, 0xa2677172, 0x3c03e4d1, 0x4b04d447, 0xd20d85fd, 0xa50ab56b,
    0x35b5a8fa, 0x42b2986c, 0xdbbbc9d6, 0xacbcf940, 0x32d86ce3, 0x45df5c75, 0xdcd60dcf, 0xabd13d59
  ]
  const BLOCK3: seq<bv32> := [
    0x26d930ac, 0x51de003a, 0xc8d75180, 0xbfd06116, 0x21b4f4b5, 0x56b3c423, 0xcfba9599, 0xb8bda50f,
    0x2802b89e, 0x5f058808, 0xc60cd9b2, 0xb10be924, 0x2f6f7c87, 0x58684c11, 0xc1611dab, 0xb6662d3d
  ]
  const BLOCK4: seq<bv32> := [
    0x76dc4190, 0x01db7106, 0x98d220bc, 0xefd5102a, 0x71b18589, 0x06b6b51f, 0x9fbfe4a5, 0xe8b8d433,
    0x7807c9a2, 0x0f00f934, 0x9609a88e, 0xe10e9818, 0x7f6a0dbb, 0x086d3d2d, 0x91646c97, 0xe6635c01
  ]
  const BLOCK5: seq<bv32> := [
    0x6b6b51f4, 0x1c6c6162, 0x856530d8, 0xf262004e, 0x6c0695ed, 0x1b01a57b, 0x8208f4c1, 0xf50fc457,
    0x65b0d9c6, 0x12b7e950, 0x8bbeb8ea, 0xfcb9887c, 0x62dd1ddf, 0x15da2d49, 0x8cd37cf3, 0xfbd44c65
  ]
  const BLOCK6: seq<bv32> := [
    0x4db26158, 0x3ab551ce, 0xa3bc0074, 0xd4bb30e2, 0x4adfa541, 0x3dd895d7, 0xa4d1c46d, 0xd3d6f4fb,
    0x4369e96a, 0x346ed9fc, 0xad678846, 0xda60b8d0, 0x44042d73, 0x33031de5, 0xaa0a4c5f, 0xdd0d7cc9
  ]
  const BLOCK7: seq<bv32> := [
    0x5005713c, 0x270241aa, 0xbe0b1010, 0xc90c2086, 0x5768b525, 0x206f85b3, 0xb966d409, 0xce61e49f,
    0x5edef90e, 0x29d9c998, 0xb0d09822, 0xc7d7a8b4, 0x59b33d17, 0x2eb40d81, 0xb7bd5c3b, 0xc0ba6cad
  ]
  const BLOCK8: seq<bv32> := [
    0xedb88320, 0x9abfb3b6, 0x03b6e20c, 0x74b1d29a, 0xead54739, 0x9dd277af, 0x04db2615, 0x73dc1683,
    0xe3630b12, 0x94643b84, 0x0d6d6a3e, 0x7a6a5aa8, 0xe40ecf0b, 0x9309ff9d, 0x0a00ae27, 0x7d079eb1
  ]
  const BLOCK9: seq<bv32> := [
    0xf00f9344, 0x8708a3d2, 0x1e01f268, 0x6906c2fe, 0xf762575d, 0x806567cb, 0x196c3671, 0x6e6b06e7,
    0xfed41b76, 0x89d32be0, 0x10da7a5a, 0x67dd4acc, 0xf9b9df6f, 0x8ebeeff9, 0x17b7be43, 0x60b08ed5
  ]
  const BLOCK10: seq<bv32> := [
    0xd6d6a3e8, 0xa1d1937e, 0x38d8c2c4, 0x4fdff252, 0xd1bb67f1, 0xa6bc5767, 0x3fb506dd, 0x48b2364b,
    0xd80d2bda, 0xaf0a1b4c, 0x36034af6, 0x41047a60, 0xdf60efc3, 0xa867df55, 0x316e8eef, 0x4669be79
  ]
  const BLOCK11: seq<bv32> := [
    0xcb61b38c, 0xbc66831a, 0x256fd2a0, 0x5268e236, 0xcc0c7795, 0xbb0b4703, 0x220216b9, 0x5505262f,
    0xc5ba3bbe, 0xb2bd0b28, 0x2bb45a92, 0x5cb36a04, 0xc2d7ffa7, 0xb5d0cf31, 0x2cd99e8b, 0x5bdeae1d
  ]
  const BLOCK12: seq<bv32> := [
    0x9b64c2b0, 0xec63f226, 0x756aa39c, 0x026d930a, 0x9c0906a9, 0xeb0e363f, 0x72076785, 0x05005713,
    0x95bf4a82, 0xe2b87a14, 0x7bb12bae, 0x0cb61b38, 0x92d28e9b, 0xe5d5be0d, 0x7cdcefb7, 0x0bdbdf21
  ]
  const BLOCK13: seq<bv32> := [
    0x86d3d2d4, 0xf1d4e242, 0x68ddb3f8, 0x1fda836e, 0x81be16cd, 0xf6b9265b, 0x6fb077e1, 0x18b74777,
    0x88085ae6, 0xff0f6a70, 0x66063bca, 0x11010b5c, 0x8f659eff, 0xf862ae69, 0x616bffd3, 0x166ccf45
  ]
  const BLOCK14: seq<bv32> := [
    0xa00ae278, 0xd70dd2ee, 0x4e048354, 0x3903b3c2, 0xa7672661, 0xd06016f7, 0x4969474d, 0x3e6e77db,
    0xaed16a4a, 0xd9d65adc, 0x40df0b66, 0x37d83bf0, 0xa9bcae53, 0xdebb9ec5, 0x47b2cf7f, 0x30b5ffe9
  ]
  const BLOCK15: seq<bv32> := [
    0xbdbdf21c, 0xcabac28a, 0x53b39330, 0x24b4a3a6, 0xbad03605, 0xcdd70693, 0x54de5729, 0x23d967bf,
    0xb3667a2e, 0xc4614ab8, 0x5d681b02, 0x2a6f2b94, 0xb40bbe37, 0xc30c8ea1, 0x5a05df1b, 0x2d02ef8d
  ]

  const QUARTER0: seq<bv32> := BLOCK0 + BLOCK1 + BLOCK2 + BLOCK3
  const QUARTER1: seq<bv32> := BLOCK4 + BLOCK5 + BLOCK6 + BLOCK7
  const QUARTER2: seq<bv32> := BLOCK8 + BLOCK9 + BLOCK10 + BLOCK11
  const QUARTER3: seq<bv32> := BLOCK12 + BLOCK13 + BLOCK14 + BLOCK15
  const TABLE: seq<bv32> := QUARTER0 + QUARTER1 + QUARTER2 + QUARTER3

  /** Eight clocks of a byte, read off from the eight entries whose index is a power of two. */
  function Combine(b: bv32): bv32 {
    (if b & 1 == 1 then 0x77073096 else 0) ^
    (if b & 2 == 2 then 0xee0e612c else 0) ^
    (if b & 4 == 4 then 0x076dc419 else 0) ^
    (if b & 8 == 8 then 0x0edb8832 else 0) ^
    (if b & 16 == 16 then 0x1db71064 else 0) ^
    (if b & 32 == 32 then 0x3b6e20c8 else 0) ^
    (if b & 64 == 64 then 0x76dc4190 else 0) ^
    (if b & 128 == 128 then 0xedb88320 else 0)
  }

  function Feedback(i: nat): bv32 {
    if i < 256 then Combine(i as bv32) else 0
  }

  ghost predicate Tabulates(s: seq<bv32>, f: nat -> bv32, b: nat) {
    forall i :: 0 <= i < |s| ==> s[i] == f(b + i)
  }

  lemma Enumerate(f: nat -> bv32, b: nat, s: seq<bv32>)
    requires s == [
      f(b), f(b + 1), f(b + 2), f(b + 3), f(b + 4), f(b + 5), f(b + 6), f(b + 7),
      f(b + 8), f(b + 9), f(b + 10), f(b + 11), f(b + 12), f(b + 13), f(b + 14), f(b + 15)
    ]
    ensures Tabulates(s, f, b)
  {
  }

  lemma Join(s: seq<bv32>, t: seq<bv32>, f: nat -> bv32, b: nat)
    requires Tabulates(s, f, b) && Tabulates(t, f, b + |s|)
    ensures Tabulates(s + t, f, b)
  {
    forall i | 0 <= i < |s + t|
      ensures (s + t)[i] == f(b + i)
    {
      if i >= |s| {
        assert (s + t)[i] == t[i - |s|];
      }
    }
  }

  lemma Values0()
    ensures Feedback(0) == 0x00000000 && Feedback(1) == 0x77073096 && Feedback(2) == 0xee0e612c && Feedback(3) == 0x990951ba
    ensures Feedback(4) == 0x076dc419 && Feedback(5) == 0x706af48f && Feedback(6) == 0xe963a535 && Feedback(7) == 0x9e6495a3
    ensures Feedback(8) == 0x0edb8832 && Feedback(9) == 0x79dcb8a4 && Feedback(10) == 0xe0d5e91e && Feedback(11) == 0x97d2d988
    ensures Feedback(12) == 0x09b64c2b && Feedback(13) == 0x7eb17cbd && Feedback(14) == 0xe7b82d07 && Feedback(15) == 0x90bf1d91
  {
  }

  lemma Values1()
    ensures Feedback(16) == 0x1db71064 && Feedback(17) == 0x6ab020f2 && Feedback(18) == 0xf3b97148 && Feedback(19) == 0x84be41de
    ensures Feedback(20) == 0x1adad47d && Feedback(21) == 0x6ddde4eb && Feedback(22) == 0xf4d4b551 && Feedback(23) == 0x83d385c7
    ensures Feedback(24) == 0x136c9856 && Feedback(25) == 0x646ba8c0 && Feedback(26) == 0xfd62f97a && Feedback(27) == 0x8a65c9ec
    ensures Feedback(28) == 0x14015c4f && Feedback(29) == 0x63066cd9 && Feedback(30) == 0xfa0f3d63 && Feedback(31) == 0x8d080df5
  {
  }

  lemma Values2()
    ensures Feedback(32) == 0x3b6e20c8 && Feedback(33) == 0x4c69105e && Feedback(34) == 0xd56041e4 && Feedback(35) == 0xa2677172
    ensures Feedback(36) == 0x3c03e4d1 && Feedback(37) == 0x4b04d447 && Feedback(38) == 0xd20d85fd && Feedback(39) == 0xa50ab56b
    ensures Feedback(40) == 0x35b5a8fa && Feedback(41) == 0x42b2986c && Feedback(42) == 0xdbbbc9d6 && Feedback(43) == 0xacbcf940
    ensures Feedback(44) == 0x32d86ce3 && Feedback(45) == 0x45df5c75 && Feedback(46) == 0xdcd60dcf && Feedback(47) == 0xabd13d59
  {
  }

  lemma Values3()
    ensures Feedback(48) == 0x26d930ac && Feedback(49) == 0x51de003a && Feedback(50) == 0xc8d75180 && Feedback(51) == 0xbfd06116
    ensures Feedback(52) == 0x21b4f4b5 && Feedback(53) == 0x56b3c423 && Feedback(54) == 0xcfba9599 && Feedback(55) == 0xb8bda50f
    ensures Feedback(56) == 0x2802b89e && Feedback(57) == 0x5f058808 && Feedback(58) == 0xc60cd9b2 && Feedback(59) == 0xb10be924
    ensures Feedback(60) == 0x2f6f7c87 && Feedback(61) == 0x58684c11 && Feedback(62) == 0xc1611dab && Feedback(63) == 0xb6662d3d
  {
  }

  lemma Values4()
    ensures Feedback(64) == 0x76dc4190 && Feedback(65) == 0x01db7106 && Feedback(66) == 0x98d220bc && Feedback(67) == 0xefd5102a
    ensures Feedback(68) == 0x71b18589 && Feedback(69) == 0x06b6b51f && Feedback(70) == 0x9fbfe4a5 && Feedback(71) == 0xe8b8d433
    ensures Feedback(72) == 0x7807c9a2 && Feedback(73) == 0x0f00f934 && Feedback(74) == 0x9609a88e && Feedback(75) == 0xe10e9818
    ensures Feedback(76) == 0x7f6a0dbb && Feedback(77) == 0x086d3d2d && Feedback(78) == 0x91646c97 && Feedback(79) == 0xe6635c01
  {
  }

  lemma Values5()
    ensures Feedback(80) == 0x6b6b51f4 && Feedback(81) == 0x1c6c6162 && Feedback(82) == 0x856530d8 && Feedback(83) == 0xf262004e
    ensures Feedback(84) == 0x6c0695ed && Feedback(85) == 0x1b01a57b && Feedback(86) == 0x8208f4c1 && Feedback(87) == 0xf50fc457
    ensures Feedback(88) == 0x65b0d9c6 && Feedback(89) == 0x12b7e950 && Feedback(90) == 0x8bbeb8ea && Feedback(91) == 0xfcb9887c
    ensures Feedback(92) == 0x62dd1ddf && Feedback(93) == 0x15da2d49 && Feedback(94) == 0x8cd37cf3 && Feedback(95) == 0xfbd44c65
  {
  }

  lemma Values6()
    ensures Feedback(96) == 0x4db26158 && Feedback(97) == 0x3ab551ce && Feedback(98) == 0xa3bc0074 && Feedback(99) == 0xd4bb30e2
    ensures Feedback(100) == 0x4adfa541 && Feedback(101) == 0x3dd895d7 && Feedback(102) == 0xa4d1c46d && Feedback(103) == 0xd3d6f4fb
    ensures Feedback(104) == 0x4369e96a && Feedback(105) == 0x346ed9fc && Feedback(106) == 0xad678846 && Feedback(107) == 0xda60b8d0
    ensures Feedback(108) == 0x44042d73 && Feedback(109) == 0x33031de5 && Feedback(110) == 0xaa0a4c5f && Feedback(111) == 0xdd0d7cc9
  {
  }

  lemma Values7()
    ensures Feedback(112) == 0x5005713c && Feedback(113) == 0x270241aa && Feedback(114) == 0xbe0b1010 && Feedback(115) == 0xc90c2086
    ensures Feedback(116) == 0x5768b525 && Feedback(117) == 0x206f85b3 && Feedback(118) == 0xb966d409 && Feedback(119) == 0xce61e49f
    ensures Feedback(120) == 0x5edef90e && Feedback(121) == 0x29d9c998 && Feedback(122) == 0xb0d09822 && Feedback(123) == 0xc7d7a8b4
    ensures Feedback(124) == 0x59b33d17 && Feedback(125) == 0x2eb40d81 && Feedback(126) == 0xb7bd5c3b && Feedback(127) == 0xc0ba6cad
  {
  }

  lemma Values8()
    ensures Feedback(128) == 0xedb88320 && Feedback(129) == 0x9abfb3b6 && Feedback(130) == 0x03b6e20c && Feedback(131) == 0x74b1d29a
    ensures Feedback(132) == 0xead54739 && Feedback(133) == 0x9dd277af && Feedback(134) == 0x04db2615 && Feedback(135) == 0x73dc1683
    ensures Feedback(136) == 0xe3630b12 && Feedback(137) == 0x94643b84 && Feedback(138) == 0x0d6d6a3e && Feedback(139) == 0x7a6a5aa8
    ensures Feedback(140) == 0xe40ecf0b && Feedback(141) == 0x9309ff9d && Feedback(142) == 0x0a00ae27 && Feedback(143) == 0x7d079eb1
  {
  }

  lemma Values9()
    ensures Feedback(144) == 0xf00f9344 && Feedback(145) == 0x8708a3d2 && Feedback(146) == 0x1e01f268 && Feedback(147) == 0x6906c2fe
    ensures Feedback(148) == 0xf762575d && Feedback(149) == 0x806567cb && Feedback(150) == 0x196c3671 && Feedback(151) == 0x6e6b06e7
    ensures Feedback(152) == 0xfed41b76 && Feedback(153) == 0x89d32be0 && Feedback(154) == 0x10da7a5a && Feedback(155) == 0x67dd4acc
    ensures Feedback(156) == 0xf9b9df6f && Feedback(157) == 0x8ebeeff9 && Feedback(158) == 0x17b7be43 && Feedback(159) == 0x60b08ed5
  {
  }

  lemma Values10()
    ensures Feedback(160) == 0xd6d6a3e8 && Feedback(161) == 0xa1d1937e && Feedback(162) == 0x38d8c2c4 && Feedback(163) == 0x4fdff252
    ensures Feedback(164) == 0xd1bb67f1 && Feedback(165) == 0xa6bc5767 && Feedback(166) == 0x3fb506dd && Feedback(167) == 0x48b2364b
    ensures Feedback(168) == 0xd80d2bda && Feedback(169) == 0xaf0a1b4c && Feedback(170) == 0x36034af6 && Feedback(171) == 0x41047a60
    ensures Feedback(172) == 0xdf60efc3 && Feedback(173) == 0xa867df55 && Feedback(174) == 0x316e8eef && Feedback(175) == 0x4669be79
  {
  }

  lemma Values11()
    ensures Feedback(176) == 0xcb61b38c && Feedback(177) == 0xbc66831a && Feedback(178) == 0x256fd2a0 && Feedback(179) == 0x5268e236
    ensures Feedback(180) == 0xcc0c7795 && Feedback(181) == 0xbb0b4703 && Feedback(182) == 0x220216b9 && Feedback(183) == 0x5505262f
    ensures Feedback(184) == 0xc5ba3bbe && Feedback(185) == 0xb2bd0b28 && Feedback(186) == 0x2bb45a92 && Feedback(187) == 0x5cb36a04
    ensures Feedback(188) == 0xc2d7ffa7 && Feedback(189) == 0xb5d0cf31 && Feedback(190) == 0x2cd99e8b && Feedback(191) == 0x5bdeae1d
  {
  }

  lemma Values12()
    ensures Feedback(192) == 0x9b64c2b0 && Feedback(193) == 0xec63f226 && Feedback(194) == 0x756aa39c && Feedback(195) == 0x026d930a
    ensures Feedback(196) == 0x9c0906a9 && Feedback(197) == 0xeb0e363f && Feedback(198) == 0x72076785 && Feedback(199) == 0x05005713
    ensures Feedback(200) == 0x95bf4a82 && Feedback(201) == 0xe2b87a14 && Feedback(202) == 0x7bb12bae && Feedback(203) == 0x0cb61b38
    ensures Feedback(204) == 0x92d28e9b && Feedback(205) == 0xe5d5be0d && Feedback(206) == 0x7cdcefb7 && Feedback(207) == 0x0bdbdf21
  {
  }

  lemma Values13()
    ensures Feedback(208) == 0x86d3d2d4 && Feedback(209) == 0xf1d4e242 && Feedback(210) == 0x68ddb3f8 && Feedback(211) == 0x1fda836e
    ensures Feedback(212) == 0x81be16cd && Feedback(213) == 0xf6b9265b && Feedback(214) == 0x6fb077e1 && Feedback(215) == 0x18b74777
    ensures Feedback(216) == 0x88085ae6 && Feedback(217) == 0xff0f6a70 && Feedback(218) == 0x66063bca && Feedback(219) == 0x11010b5c
    ensures Feedback(220) == 0x8f659eff && Feedback(221) == 0xf862ae69 && Feedback(222) == 0x616bffd3 && Feedback(223) == 0x166ccf45
  {
  }

  lemma Values14()
    ensures Feedback(224) == 0xa00ae278 && Feedback(225) == 0xd70dd2ee && Feedback(226) == 0x4e048354 && Feedback(227) == 0x3903b3c2
    ensures Feedback(228) == 0xa7672661 && Feedback(229) == 0xd06016f7 && Feedback(230) == 0x4969474d && Feedback(231) == 0x3e6e77db
    ensures Feedback(232) == 0xaed16a4a && Feedback(233) == 0xd9d65adc && Feedback(234) == 0x40df0b66 && Feedback(235) == 0x37d83bf0
    ensures Feedback(236) == 0xa9bcae53 && Feedback(237) == 0xdebb9ec5 && Feedback(238) == 0x47b2cf7f && Feedback(239) == 0x30b5ffe9
  {
  }

  lemma Values15()
    ensures Feedback(240) == 0xbdbdf21c && Feedback(241) == 0xcabac28a && Feedback(242) == 0x53b39330 && Feedback(243) == 0x24b4a3a6
    ensures Feedback(244) == 0xbad03605 && Feedback(245) == 0xcdd70693 && Feedback(246) == 0x54de5729 && Feedback(247) == 0x23d967bf
    ensures Feedback(248) == 0xb3667a2e && Feedback(249) == 0xc4614ab8 && Feedback(250) == 0x5d681b02 && Feedback(251) == 0x2a6f2b94
    ensures Feedback(252) == 0xb40bbe37 && Feedback(253) == 0xc30c8ea1 && Feedback(254) == 0x5a05df1b && Feedback(255) == 0x2d02ef8d
  {
  }

  lemma Block0()
    ensures |BLOCK0| == 16 && Tabulates(BLOCK0, Feedback, 0)
  {
    Values0();
    Enumerate(Feedback, 0, BLOCK0);
  }

  lemma Block1()
    ensures |BLOCK1| == 16 && Tabulates(BLOCK1, Feedback, 16)
  {
    Values1();
    Enumerate(Feedback, 16, BLOCK1);
  }

  lemma Block2()
    ensures |BLOCK2| == 16 && Tabulates(BLOCK2, Feedback, 32)
  {
    Values2();
    Enumerate(Feedback, 32, BLOCK2);
  }

  lemma Block3()
    ensures |BLOCK3| == 16 && Tabulates(BLOCK3, Feedback, 48)
  {
    Values3();
    Enumerate(Feedback, 48, BLOCK3);
  }

  lemma Block4()
    ensures |BLOCK4| == 16 && Tabulates(BLOCK4, Feedback, 64)
  {
    Values4();
    Enumerate(Feedback, 64, BLOCK4);
  }

  lemma Block5()
    ensures |BLOCK5| == 16 && Tabulates(BLOCK5, Feedback, 80)
  {
    Values5();
    Enumerate(Feedback, 80, BLOCK5);
  }

  lemma Block6()
    ensures |BLOCK6| == 16 && Tabulates(BLOCK6, Feedback, 96)
  {
    Values6();
    Enumerate(Feedback, 96, BLOCK6);
  }

  lemma Block7()
    ensures |BLOCK7| == 16 && Tabulates(BLOCK7, Feedback, 112)
  {
    Values7();
    Enumerate(Feedback, 112, BLOCK7);
  }

  lemma Block8()
    ensures |BLOCK8| == 16 && Tabulates(BLOCK8, Feedback, 128)
  {
    Values8();
    Enumerate(Feedback, 128, BLOCK8);
  }

  lemma Block9()
    ensures |BLOCK9| == 16 && Tabulates(BLOCK9, Feedback, 144)
  {
    Values9();
    Enumerate(Feedback, 144, BLOCK9);
  }

  lemma Block10()
    ensures |BLOCK10| == 16 && Tabulates(BLOCK10, Feedback, 160)
  {
    Values10();
    Enumerate(Feedback, 160, BLOCK10);
  }

  lemma Block11()
    ensures |BLOCK11| == 16 && Tabulates(BLOCK11, Feedback, 176)
  {
    Values11();
    Enumerate(Feedback, 176, BLOCK11);
  }

  lemma Block12()
    ensures |BLOCK12| == 16 && Tabulates(BLOCK12, Feedback, 192)
  {
    Values12();
    Enumerate(Feedback, 192, BLOCK12);
  }

  lemma Block13()
    ensures |BLOCK13| == 16 && Tabulates(BLOCK13, Feedback, 208)
  {
    Values13();
    Enumerate(Feedback, 208, BLOCK13);
  }

  lemma Block14()
    ensures |BLOCK14| == 16 && Tabulates(BLOCK14, Feedback, 224)
  {
    Values14();
    Enumerate(Feedback, 224, BLOCK14);
  }

  lemma Block15()
    ensures |BLOCK15| == 16 && Tabulates(BLOCK15, Feedback, 240)
  {
    Values15();
    Enumerate(Feedback, 240, BLOCK15);
  }

  /** Four tables of n entries each, tabulating f from b0, b1, b2 and b3 on. */
  lemma JoinFour(s: seq<bv32>, t: seq<bv32>, u: seq<bv32>, v: seq<bv32>, f: nat -> bv32,
                 n: nat, b0: nat, b1: nat, b2: nat, b3: nat)
    requires |s| == n && |t| == n && |u| == n && |v| == n
    requires b1 == b0 + n && b2 == b1 + n && b3 == b2 + n
    requires Tabulates(s, f, b0) && Tabulates(t, f, b1) && Tabulates(u, f, b2) && Tabulates(v, f, b3)
    ensures |s + t + u + v| == 4 * n && Tabulates(s + t + u + v, f, b0)
  {
    Join(s, t, f, b0);
    Join(s + t, u, f, b0);
    Join(s + t + u, v, f, b0);
  }

  lemma Quarter0()
    ensures |QUARTER0| == 64 && Tabulates(QUARTER0, Feedback, 0)
  {
    Block0(); Block1(); Block2(); Block3();
    JoinFour(BLOCK0, BLOCK1, BLOCK2, BLOCK3, Feedback, 16, 0, 16, 32, 48);
  }

  lemma Quarter1()
    ensures |QUARTER1| == 64 && Tabulates(QUARTER1, Feedback, 64)
  {
    Block4(); Block5(); Block6(); Block7();
    JoinFour(BLOCK4, BLOCK5, BLOCK6, BLOCK7, Feedback, 16, 64, 80, 96, 112);
  }

  lemma Quarter2()
    ensures |QUARTER2| == 64 && Tabulates(QUARTER2, Feedback, 128)
  {
    Block8(); Block9(); Block10(); Block11();
    JoinFour(BLOCK8, BLOCK9, BLOCK10, BLOCK11, Feedback, 16, 128, 144, 160, 176);
  }

  lemma Quarter3()
    ensures |QUARTER3| == 64 && Tabulates(QUARTER3, Feedback, 192)
  {
    Block12(); Block13(); Block14(); Block15();
    JoinFour(BLOCK12, BLOCK13, BLOCK14, BLOCK15, Feedback, 16, 192, 208, 224, 240);
  }

  lemma TableTabulates()
    ensures |TABLE| == 256 && Tabulates(TABLE, Feedback, 0)
  {
    Quarter0(); Quarter1(); Quarter2(); Quarter3();
    JoinFour(QUARTER0, QUARTER1, QUARTER2, QUARTER3, Feedback, 64, 0, 64, 128, 192);
  }

  lemma Lookup(t: seq<bv32>, i: nat)
    requires i < |t| && Tabulates(t, Feedback, 0)
    ensures t[i] == Feedback(i)
  {
    assert t[i] == Feedback(0 + i);
  }

  lemma TableIsCombine(i: nat)
    requires i < 256
    ensures |TABLE| == 256 && TABLE[i] == Combine(i as bv32)
  {
    TableTabulates();
    Lookup(TABLE, i);
  }
}
