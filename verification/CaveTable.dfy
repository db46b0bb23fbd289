/** The substitution table of S.S0053 section 2, by rows of sixteen. */
module CaveTable {
  import opened Bytes

  function Low(x: Byte): (n: nat)
    ensures n < 16
  {
    (x as int) % 16
  }

  function Row0(r: nat): (x: Byte) {
    match r
    case 0 => 0xd9 case 1 => 0x23 case 2 => 0x5f case 3 => 0xe6 case 4 => 0xca case 5 => 0x68
    case 6 => 0x97 case 7 => 0xb0 case 8 => 0x7b case 9 => 0xf2 case 10 => 0x0c case 11 => 0x34
    case 12 => 0x11 case 13 => 0xa5 case 14 => 0x8d case _ => 0x4e
  }

  function Row1(r: nat): (x: Byte) {
    match r
    case 0 => 0x0a case 1 => 0x46 case 2 => 0x77 case 3 => 0x8d case 4 => 0x10 case 5 => 0x9f
    case 6 => 0x5e case 7 => 0x62 case 8 => 0xf1 case 9 => 0x34 case 10 => 0xec case 11 => 0xa5
    case 12 => 0xc9 case 13 => 0xb3 case 14 => 0xd8 case _ => 0x2b
  }

  function Row2(r: nat): (x: Byte) {
    match r
    case 0 => 0x59 case 1 => 0x47 case 2 => 0xe3 case 3 => 0xd2 case 4 => 0xff case 5 => 0xae
    case 6 => 0x64 case 7 => 0xca case 8 => 0x15 case 9 => 0x8b case 10 => 0x7d case 11 => 0x38
    case 12 => 0x21 case 13 => 0xbc case 14 => 0x96 case _ => 0x00
  }

  function Row3(r: nat): (x: Byte) {
    match r
    case 0 => 0x49 case 1 => 0x56 case 2 => 0x23 case 3 => 0x15 case 4 => 0x97 case 5 => 0xe4
    case 6 => 0xcb case 7 => 0x6f case 8 => 0xf2 case 9 => 0x70 case 10 => 0x3c case 11 => 0x88
    case 12 => 0xba case 13 => 0xd1 case 14 => 0x0d case _ => 0xae
  }

  function Row4(r: nat): (x: Byte) {
    match r
    case 0 => 0xe2 case 1 => 0x38 case 2 => 0xba case 3 => 0x44 case 4 => 0x9f case 5 => 0x83
    case 6 => 0x5d case 7 => 0x1c case 8 => 0xde case 9 => 0xab case 10 => 0xc7 case 11 => 0x65
    case 12 => 0xf1 case 13 => 0x76 case 14 => 0x09 case _ => 0x20
  }

  function Row5(r: nat): (x: Byte) {
    match r
    case 0 => 0x86 case 1 => 0xbd case 2 => 0x0a case 3 => 0xf1 case 4 => 0x3c case 5 => 0xa7
    case 6 => 0x29 case 7 => 0x93 case 8 => 0xcb case 9 => 0x45 case 10 => 0x5f case 11 => 0xe8
    case 12 => 0x10 case 13 => 0x74 case 14 => 0x62 case _ => 0xde
  }

  function Row6(r: nat): (x: Byte) {
    match r
    case 0 => 0xb8 case 1 => 0x77 case 2 => 0x80 case 3 => 0xd1 case 4 => 0x12 case 5 => 0x26
    case 6 => 0xac case 7 => 0x6d case 8 => 0xe9 case 9 => 0xcf case 10 => 0xf3 case 11 => 0x54
    case 12 => 0x3a case 13 => 0x0b case 14 => 0x95 case _ => 0x4e
  }

  function Row7(r: nat): (x: Byte) {
    match r
    case 0 => 0xb1 case 1 => 0x30 case 2 => 0xa4 case 3 => 0x96 case 4 => 0xf8 case 5 => 0x57
    case 6 => 0x49 case 7 => 0x8e case 8 => 0x05 case 9 => 0x1f case 10 => 0x62 case 11 => 0x7c
    case 12 => 0xc3 case 13 => 0x2b case 14 => 0xda case _ => 0xed
  }

  function Row8(r: nat): (x: Byte) {
    match r
    case 0 => 0xbb case 1 => 0x86 case 2 => 0x0d case 3 => 0x7a case 4 => 0x97 case 5 => 0x13
    case 6 => 0x6c case 7 => 0x4e case 8 => 0x51 case 9 => 0x30 case 10 => 0xe5 case 11 => 0xf2
    case 12 => 0x2f case 13 => 0xd8 case 14 => 0xc4 case _ => 0xa9
  }

  function Row9(r: nat): (x: Byte) {
    match r
    case 0 => 0x91 case 1 => 0x76 case 2 => 0xf0 case 3 => 0x17 case 4 => 0x43 case 5 => 0x38
    case 6 => 0x29 case 7 => 0x84 case 8 => 0xa2 case 9 => 0xdb case 10 => 0xef case 11 => 0x65
    case 12 => 0x5e case 13 => 0xca case 14 => 0x0d case _ => 0xbc
  }

  function Row10(r: nat): (x: Byte) {
    match r
    case 0 => 0xe7 case 1 => 0xfa case 2 => 0xd8 case 3 => 0x81 case 4 => 0x6f case 5 => 0x00
    case 6 => 0x14 case 7 => 0x42 case 8 => 0x25 case 9 => 0x7c case 10 => 0x5d case 11 => 0xc9
    case 12 => 0x9e case 13 => 0xb6 case 14 => 0x33 case _ => 0xab
  }

  function Row11(r: nat): (x: Byte) {
    match r
    case 0 => 0x5a case 1 => 0x6f case 2 => 0x9b case 3 => 0xd9 case 4 => 0xfe case 5 => 0x71
    case 6 => 0x44 case 7 => 0xc5 case 8 => 0x37 case 9 => 0xa2 case 10 => 0x88 case 11 => 0x2d
    case 12 => 0x00 case 13 => 0xb6 case 14 => 0x13 case _ => 0xec
  }

  function Row12(r: nat): (x: Byte) {
    match r
    case 0 => 0x4e case 1 => 0x96 case 2 => 0xa8 case 3 => 0x5a case 4 => 0xb5 case 5 => 0xd7
    case 6 => 0xc3 case 7 => 0x8d case 8 => 0x3f case 9 => 0xf2 case 10 => 0xec case 11 => 0x04
    case 12 => 0x60 case 13 => 0x71 case 14 => 0x1b case _ => 0x29
  }

  function Row13(r: nat): (x: Byte) {
    match r
    case 0 => 0x04 case 1 => 0x79 case 2 => 0xe3 case 3 => 0xc7 case 4 => 0x1b case 5 => 0x66
    case 6 => 0x81 case 7 => 0x4a case 8 => 0x25 case 9 => 0x9d case 10 => 0xdc case 11 => 0x5f
    case 12 => 0x3e case 13 => 0xb0 case 14 => 0xf8 case _ => 0xa2
  }

  function Row14(r: nat): (x: Byte) {
    match r
    case 0 => 0x91 case 1 => 0x34 case 2 => 0xf6 case 3 => 0x5c case 4 => 0x67 case 5 => 0x89
    case 6 => 0x73 case 7 => 0x05 case 8 => 0x22 case 9 => 0xaa case 10 => 0xcb case 11 => 0xee
    case 12 => 0xbf case 13 => 0x18 case 14 => 0xd0 case _ => 0x4d
  }

  function Row15(r: nat): (x: Byte) {
    match r
    case 0 => 0xf5 case 1 => 0x36 case 2 => 0xae case 3 => 0x01 case 4 => 0x2f case 5 => 0x94
    case 6 => 0xc3 case 7 => 0x49 case 8 => 0x8b case 9 => 0xbd case 10 => 0x58 case 11 => 0x12
    case 12 => 0xe0 case 13 => 0x77 case 14 => 0x6c case _ => 0xda
  }

  function Row(k: nat, r: nat): (x: Byte)
    requires k < 16
  {
    match k
    case 0 => Row0(r)
    case 1 => Row1(r)
    case 2 => Row2(r)
    case 3 => Row3(r)
    case 4 => Row4(r)
    case 5 => Row5(r)
    case 6 => Row6(r)
    case 7 => Row7(r)
    case 8 => Row8(r)
    case 9 => Row9(r)
    case 10 => Row10(r)
    case 11 => Row11(r)
    case 12 => Row12(r)
    case 13 => Row13(r)
    case 14 => Row14(r)
    case _ => Row15(r)
  }

  lemma Apart0(r: nat, r': nat) requires r < r' < 16 ensures Low(Row0(r)) != Low(Row0(r')) {}
  lemma Apart1(r: nat, r': nat) requires r < r' < 16 ensures Low(Row1(r)) != Low(Row1(r')) {}
  lemma Apart2(r: nat, r': nat) requires r < r' < 16 ensures Low(Row2(r)) != Low(Row2(r')) {}
  lemma Apart3(r: nat, r': nat) requires r < r' < 16 ensures Low(Row3(r)) != Low(Row3(r')) {}
  lemma Apart4(r: nat, r': nat) requires r < r' < 16 ensures Low(Row4(r)) != Low(Row4(r')) {}
  lemma Apart5(r: nat, r': nat) requires r < r' < 16 ensures Low(Row5(r)) != Low(Row5(r')) {}
  lemma Apart6(r: nat, r': nat) requires r < r' < 16 ensures Low(Row6(r)) != Low(Row6(r')) {}
  lemma Apart7(r: nat, r': nat) requires r < r' < 16 ensures Low(Row7(r)) != Low(Row7(r')) {}
  lemma Apart8(r: nat, r': nat) requires r < r' < 16 ensures Low(Row8(r)) != Low(Row8(r')) {}
  lemma Apart9(r: nat, r': nat) requires r < r' < 16 ensures Low(Row9(r)) != Low(Row9(r')) {}
  lemma Apart10(r: nat, r': nat) requires r < r' < 16 ensures Low(Row10(r)) != Low(Row10(r')) {}
  lemma Apart11(r: nat, r': nat) requires r < r' < 16 ensures Low(Row11(r)) != Low(Row11(r')) {}
  lemma Apart12(r: nat, r': nat) requires r < r' < 16 ensures Low(Row12(r)) != Low(Row12(r')) {}
  lemma Apart13(r: nat, r': nat) requires r < r' < 16 ensures Low(Row13(r)) != Low(Row13(r')) {}
  lemma Apart14(r: nat, r': nat) requires r < r' < 16 ensures Low(Row14(r)) != Low(Row14(r')) {}
  lemma Apart15(r: nat, r': nat) requires r < r' < 16 ensures Low(Row15(r)) != Low(Row15(r')) {}

  /** The low nibbles of a row are all different. */
  lemma Apart(k: nat, r: nat, r': nat)
    requires k < 16 && r < 16 && r' < 16 && Low(Row(k, r)) == Low(Row(k, r'))
    ensures r == r'
  {
    hide Row0, Row1, Row2, Row3, Row4, Row5, Row6, Row7, Row8, Row9, Row10, Row11, Row12, Row13, Row14, Row15, Low;
    var a, b := if r < r' then r else r', if r < r' then r' else r;
    if a < b {
      match k
      case 0 => Apart0(a, b);
      case 1 => Apart1(a, b);
      case 2 => Apart2(a, b);
      case 3 => Apart3(a, b);
      case 4 => Apart4(a, b);
      case 5 => Apart5(a, b);
      case 6 => Apart6(a, b);
      case 7 => Apart7(a, b);
      case 8 => Apart8(a, b);
      case 9 => Apart9(a, b);
      case 10 => Apart10(a, b);
      case 11 => Apart11(a, b);
      case 12 => Apart12(a, b);
      case 13 => Apart13(a, b);
      case 14 => Apart14(a, b);
      case _ => Apart15(a, b);
    }
  }

  function Table(i: Byte): (x: Byte) {
    Row((i as int) / 16, (i as int) % 16)
  }
}
