/** CAVE on the key 11223344556677889900 and the serial number 0xf274799a, step by step. */
module CaveVector2 {
  import opened Bytes
  import opened CaveTable
  import opened Cave
  import opened CaveRounds
  import opened CaveSteps
  import opened CaveReckoning

  // Round 7

  lemma Turns7a()
    ensures Turn(0x9bc15469, 0x80, 0x80, 0x9b, 0xc1, 0x26f0551a, 0x56, 0xfb, 0xd8)
    ensures Turn(0x26f0551a, 0x56, 0xfb, 0xc1, 0x54, 0x89bc1546, 0x0f, 0xb4, 0xaa)
  {
    hide Seeks, Turn;
    Finds(false, 0x4de0aa34, 4, 13, 14, 0, 0xaa3, 4, 0x9b, 9, 11, 0x80, 0x56, 5, 6, 2, 9, 1, 9);
    Misses(false, 0x9bc15469, 9, 11, 12, 1, 0x546, 9, 0x9b, 9, 11, 0x80, 0x80, 8, 0, 11, 11, 0, 0x4de0aa34,
           0x4de0aa34, 0x56, 9);
    Finds(true, 0x4de0aa34, 4, 13, 14, 0, 0xaa3, 4, 0x9b, 9, 11, 0x80, 0xfb, 15, 11, 1, 2, 0, 0x10);
    Turns(0x9bc15469, 0x80, 0x80, 0x9b, 0xc1, 12, 1, 0x4de0aa34, 0x56, 9, 0x4de0aa34, 0xfb, 1, 4, 13, 14, 0, 0xaa3, 4,
          0x26f0551a, 0xd8);
    Finds(false, 0x13782a8d, 1, 3, 7, 8, 0x2a8, 13, 0xc1, 12, 1, 0x3d, 0x0f, 0, 15, 4, 14, 1, 14);
    Misses(false, 0x26f0551a, 2, 6, 15, 0, 0x551, 10, 0xc1, 12, 1, 0x56, 0x3d, 3, 13, 13, 1, 0, 0x13782a8d,
           0x13782a8d, 0x0f, 14);
    Finds(true, 0x13782a8d, 1, 3, 7, 8, 0x2a8, 13, 0xc1, 12, 1, 0xfb, 0xb4, 11, 4, 15, 14, 0, 0xf0);
    Turns(0x26f0551a, 0x56, 0xfb, 0xc1, 0x54, 5, 4, 0x13782a8d, 0x0f, 14, 0x13782a8d, 0xb4, 15, 1, 3, 7, 8, 0x2a8, 13,
          0x89bc1546, 0xaa);
  }

  lemma Turns7b()
    ensures Turn(0x89bc1546, 0x0f, 0xb4, 0x54, 0x69, 0xa26f0551, 0xec, 0x26, 0x06)
    ensures Turn(0xa26f0551, 0xec, 0x26, 0x69, 0x14, 0x513782a8, 0xb7, 0x2c, 0x31)
  {
    hide Seeks, Turn;
    Finds(false, 0x89bc1546, 8, 9, 11, 12, 0x154, 6, 0x54, 5, 4, 0x0f, 0xec, 14, 12, 11, 15, 0, 15);
    Finds(true, 0x44de0aa3, 4, 4, 13, 14, 0xaa, 3, 0x54, 5, 4, 0x9c, 0x26, 2, 6, 6, 4, 1, 0x60);
    Misses(true, 0x89bc1546, 8, 9, 11, 12, 0x154, 6, 0x54, 5, 4, 0xb4, 0x9c, 9, 12, 5, 14, 0, 0x44de0aa3, 0x44de0aa3,
           0x26, 0x60);
    Turns(0x89bc1546, 0x0f, 0xb4, 0x54, 0x69, 6, 9, 0x89bc1546, 0xec, 15, 0x44de0aa3, 0x26, 6, 4, 4, 13, 14, 0xaa, 3,
          0xa26f0551, 0x06);
    TurnsAtOnce(0xa26f0551, 10, 2, 6, 15, 0x55, 1, 0x69, 6, 9, 0x14, 1, 4, 0xec, 0xb7, 11, 7, 12, 5, 0x26, 0x2c, 2,
                12, 2, 1, 0x513782a8, 0x31);
  }

  lemma Turns7c()
    ensures Turn(0x513782a8, 0xb7, 0x2c, 0x14, 0x99, 0x289bc154, 0xfc, 0x4f, 0xb9)
    ensures Turn(0x289bc154, 0xfc, 0x4f, 0x99, 0x7f, 0x944de0aa, 0xad, 0x51, 0xc9)
  {
    hide Seeks, Turn;
    TurnsAtOnce(0x513782a8, 5, 1, 3, 7, 0x82a, 8, 0x14, 1, 4, 0x99, 9, 9, 0xb7, 0xfc, 15, 12, 14, 0, 0x2c, 0x4f, 4,
                15, 2, 0, 0x289bc154, 0xb9);
    TurnsAtOnce(0x289bc154, 2, 8, 9, 11, 0xc15, 4, 0x99, 9, 9, 0x7f, 7, 15, 0xfc, 0xad, 10, 13, 11, 6, 0x4f, 0x51, 5,
                1, 11, 13, 0x944de0aa, 0xc9);
  }

  lemma Turns7d()
    ensures Turn(0x944de0aa, 0xad, 0x51, 0x7f, 0x6c, 0x2513782a, 0x98, 0xdc, 0x5e)
    ensures Turn(0x2513782a, 0x98, 0xdc, 0x6c, 0xc7, 0x9289bc15, 0xe1, 0x5b, 0x23)
  {
    hide Seeks, Turn;
    Finds(false, 0x944de0aa, 9, 4, 4, 13, 0xe0a, 10, 0x7f, 7, 15, 0xad, 0x98, 9, 8, 10, 2, 0, 2);
    Finds(true, 0x4a26f055, 4, 10, 2, 6, 0xf05, 5, 0x7f, 7, 15, 0x83, 0xdc, 13, 12, 3, 14, 1, 0x30);
    Misses(true, 0x944de0aa, 9, 4, 4, 13, 0xe0a, 10, 0x7f, 7, 15, 0x51, 0x83, 8, 3, 7, 10, 0, 0x4a26f055, 0x4a26f055,
           0xdc, 0x30);
    Turns(0x944de0aa, 0xad, 0x51, 0x7f, 0x6c, 6, 12, 0x944de0aa, 0x98, 2, 0x4a26f055, 0xdc, 3, 4, 10, 2, 6, 0xf05, 5,
          0x2513782a, 0x5e);
    TurnsAtOnce(0x2513782a, 2, 5, 1, 3, 0x782, 10, 0x6c, 6, 12, 0xc7, 12, 7, 0x98, 0xe1, 14, 1, 3, 4, 0xdc, 0x5b, 5,
                11, 14, 8, 0x9289bc15, 0x23);
  }

  lemma Turns7e()
    ensures Turn(0x9289bc15, 0xe1, 0x5b, 0xc7, 0x99, 0x4944de0a, 0x36, 0xa9, 0xe2)
    ensures Turn(0x4944de0a, 0x36, 0xa9, 0x99, 0x7f, 0x24a26f05, 0x06, 0x86, 0x18)
  {
    hide Seeks, Turn;
    TurnsAtOnce(0x9289bc15, 9, 2, 8, 9, 0xbc1, 5, 0xc7, 12, 7, 0x99, 9, 9, 0xe1, 0x36, 3, 6, 12, 11, 0x5b, 0xa9, 10,
                9, 7, 12, 0x4944de0a, 0xe2);
    TurnsAtOnce(0x4944de0a, 4, 9, 4, 4, 0xde0, 10, 0x99, 9, 9, 0x7f, 7, 15, 0x36, 0x06, 0, 6, 9, 7, 0xa9, 0x86, 8, 6,
                6, 12, 0x24a26f05, 0x18);
  }

  lemma Turns7f()
    ensures Turn(0x24a26f05, 0x06, 0x86, 0x7f, 0x6c, 0x12513782, 0x61, 0x63, 0xbb)
    ensures Turn(0x12513782, 0x61, 0x63, 0x6c, 0xf2, 0x09289bc1, 0xdf, 0xa0, 0x10)
  {
    hide Seeks, Turn;
    TurnsAtOnce(0x24a26f05, 2, 4, 10, 2, 0x6f0, 5, 0x7f, 7, 15, 0x6c, 6, 12, 0x06, 0x61, 6, 1, 7, 7, 0x86, 0x63, 6, 3,
                13, 1, 0x12513782, 0xbb);
    TurnsAtOnce(0x12513782, 1, 2, 5, 1, 0x378, 2, 0x6c, 6, 12, 0xf2, 15, 2, 0x61, 0xdf, 13, 15, 10, 2, 0x63, 0xa0, 10,
                0, 14, 7, 0x09289bc1, 0x10);
  }

  lemma Turns7g()
    ensures Turn(0x09289bc1, 0xdf, 0xa0, 0xf2, 0x74, 0x84944de0, 0xda, 0x7a, 0x18)
    ensures Turn(0x84944de0, 0xda, 0x7a, 0x74, 0x79, 0x424a26f0, 0xca, 0x5a, 0x25)
  {
    hide Seeks, Turn;
    TurnsAtOnce(0x09289bc1, 0, 9, 2, 8, 0x9bc, 1, 0xf2, 15, 2, 0x74, 7, 4, 0xdf, 0xda, 13, 10, 13, 12, 0xa0, 0x7a, 7,
                10, 6, 2, 0x84944de0, 0x18);
    TurnsAtOnce(0x84944de0, 8, 4, 9, 4, 0x4de, 0, 0x74, 7, 4, 0x79, 7, 9, 0xda, 0xca, 12, 10, 14, 12, 0x7a, 0x5a, 5,
                10, 5, 15, 0x424a26f0, 0x25);
  }

  lemma Turns7h()
    ensures Turn(0x424a26f0, 0xca, 0x5a, 0x79, 0x9a, 0xa1251378, 0x05, 0x8d, 0x42)
    ensures Turn(0xa1251378, 0x05, 0x8d, 0x9a, 0x9b, 0x509289bc, 0x40, 0x4c, 0x69)
  {
    hide Seeks, Turn;
    TurnsAtOnce(0x424a26f0, 4, 2, 4, 10, 0x26f, 0, 0x79, 7, 9, 0x9a, 9, 10, 0xca, 0x05, 0, 5, 6, 8, 0x5a, 0x8d, 8, 13,
                13, 8, 0xa1251378, 0x42);
    TurnsAtOnce(0xa1251378, 10, 1, 2, 5, 0x137, 8, 0x9a, 9, 10, 0x9b, 9, 11, 0x05, 0x40, 4, 0, 14, 2, 0x8d, 0x4c, 4,
                12, 15, 1, 0x509289bc, 0x69);
  }

  lemma Mix7(st: State)
    requires At(st, 0, 0x9bc15469, 0x80, 0x80)
    requires Reg(st, 0, 0x9b) && Reg(st, 1, 0xc1) && Reg(st, 2, 0x54) && Reg(st, 3, 0x69)
    requires Reg(st, 4, 0x14) && Reg(st, 5, 0x99) && Reg(st, 6, 0x7f) && Reg(st, 7, 0x6c)
    requires Reg(st, 8, 0xc7) && Reg(st, 9, 0x99) && Reg(st, 10, 0x7f) && Reg(st, 11, 0x6c)
    requires Reg(st, 12, 0xf2) && Reg(st, 13, 0x74) && Reg(st, 14, 0x79) && Reg(st, 15, 0x9a)
    ensures At(st, 16, 0x509289bc, 0x40, 0x4c)
    ensures Out(st, 0, 0xd8) && Out(st, 1, 0xaa) && Out(st, 2, 0x06) && Out(st, 3, 0x31)
    ensures Out(st, 4, 0xb9) && Out(st, 5, 0xc9) && Out(st, 6, 0x5e) && Out(st, 7, 0x23)
    ensures Out(st, 8, 0xe2) && Out(st, 9, 0x18) && Out(st, 10, 0xbb) && Out(st, 11, 0x10)
    ensures Out(st, 12, 0x18) && Out(st, 13, 0x25) && Out(st, 14, 0x42) && Out(st, 15, 0x69)
  {
    hide At, Reg, Out, Turn;
    Turns7a();
    Turns7b();
    Turns7c();
    Turns7d();
    Turns7e();
    Turns7f();
    Turns7g();
    Turns7h();
    Take(st, 0, 1, 0x9bc15469, 0x80, 0x80, 0x9b, 0xc1, 0x26f0551a, 0x56, 0xfb, 0xd8);
    Take(st, 1, 2, 0x26f0551a, 0x56, 0xfb, 0xc1, 0x54, 0x89bc1546, 0x0f, 0xb4, 0xaa);
    Take(st, 2, 3, 0x89bc1546, 0x0f, 0xb4, 0x54, 0x69, 0xa26f0551, 0xec, 0x26, 0x06);
    Take(st, 3, 4, 0xa26f0551, 0xec, 0x26, 0x69, 0x14, 0x513782a8, 0xb7, 0x2c, 0x31);
    Take(st, 4, 5, 0x513782a8, 0xb7, 0x2c, 0x14, 0x99, 0x289bc154, 0xfc, 0x4f, 0xb9);
    Take(st, 5, 6, 0x289bc154, 0xfc, 0x4f, 0x99, 0x7f, 0x944de0aa, 0xad, 0x51, 0xc9);
    Take(st, 6, 7, 0x944de0aa, 0xad, 0x51, 0x7f, 0x6c, 0x2513782a, 0x98, 0xdc, 0x5e);
    Take(st, 7, 8, 0x2513782a, 0x98, 0xdc, 0x6c, 0xc7, 0x9289bc15, 0xe1, 0x5b, 0x23);
    Take(st, 8, 9, 0x9289bc15, 0xe1, 0x5b, 0xc7, 0x99, 0x4944de0a, 0x36, 0xa9, 0xe2);
    Take(st, 9, 10, 0x4944de0a, 0x36, 0xa9, 0x99, 0x7f, 0x24a26f05, 0x06, 0x86, 0x18);
    Take(st, 10, 11, 0x24a26f05, 0x06, 0x86, 0x7f, 0x6c, 0x12513782, 0x61, 0x63, 0xbb);
    Take(st, 11, 12, 0x12513782, 0x61, 0x63, 0x6c, 0xf2, 0x09289bc1, 0xdf, 0xa0, 0x10);
    Take(st, 12, 13, 0x09289bc1, 0xdf, 0xa0, 0xf2, 0x74, 0x84944de0, 0xda, 0x7a, 0x18);
    Take(st, 13, 14, 0x84944de0, 0xda, 0x7a, 0x74, 0x79, 0x424a26f0, 0xca, 0x5a, 0x25);
    Take(st, 14, 15, 0x424a26f0, 0xca, 0x5a, 0x79, 0x9a, 0xa1251378, 0x05, 0x8d, 0x42);
    Take(st, 15, 0, 0xa1251378, 0x05, 0x8d, 0x9a, 0x9b, 0x509289bc, 0x40, 0x4c, 0x69);
  }

  lemma Land7a(st: State, scratch: Registers, next: State)
    requires Leads(st, scratch, 7, next)
    requires Out(st, 0, 0xd8) && Out(st, 1, 0xaa) && Out(st, 2, 0x06) && Out(st, 3, 0x31) && Out(st, 15, 0x69)
    ensures Reg(next, 1, 0xec) && Reg(next, 0, 0x55) && Reg(next, 4, 0x03) && Reg(next, 6, 0x18)
  {
    hide Leads, Reg, Out;
    assert Reg(next, 1, 0xec) by {
      Lands(st, scratch, 7, next, 0, 15, 0x69, 6, 9, 0xd8, 13, 8, 11, 1, 0xec);
    }
    assert Reg(next, 0, 0x55) by {
      Lands(st, scratch, 7, next, 1, 0, 0xd8, 13, 8, 0xaa, 10, 10, 3, 0, 0x55);
    }
    assert Reg(next, 4, 0x03) by {
      Lands(st, scratch, 7, next, 2, 1, 0xaa, 10, 10, 0x06, 0, 6, 10, 4, 0x03);
    }
    assert Reg(next, 6, 0x18) by {
      Lands(st, scratch, 7, next, 3, 2, 0x06, 0, 6, 0x31, 3, 1, 9, 6, 0x18);
    }
  }

  lemma Land7b(st: State, scratch: Registers, next: State)
    requires Leads(st, scratch, 7, next)
    requires Out(st, 3, 0x31) && Out(st, 4, 0xb9) && Out(st, 5, 0xc9) && Out(st, 6, 0x5e) && Out(st, 7, 0x23)
    ensures Reg(next, 8, 0xdc) && Reg(next, 7, 0xe4) && Reg(next, 9, 0xaf) && Reg(next, 14, 0x11)
  {
    hide Leads, Reg, Out;
    assert Reg(next, 8, 0xdc) by {
      Lands(st, scratch, 7, next, 4, 3, 0x31, 3, 1, 0xb9, 11, 9, 15, 8, 0xdc);
    }
    assert Reg(next, 7, 0xe4) by {
      Lands(st, scratch, 7, next, 5, 4, 0xb9, 11, 9, 0xc9, 12, 9, 5, 7, 0xe4);
    }
    assert Reg(next, 9, 0xaf) by {
      Lands(st, scratch, 7, next, 6, 5, 0xc9, 12, 9, 0x5e, 5, 14, 4, 9, 0xaf);
    }
    assert Reg(next, 14, 0x11) by {
      Lands(st, scratch, 7, next, 7, 6, 0x5e, 5, 14, 0x23, 2, 3, 8, 14, 0x11);
    }
  }

  lemma Land7c(st: State, scratch: Registers, next: State)
    requires Leads(st, scratch, 7, next)
    requires Out(st, 7, 0x23) && Out(st, 8, 0xe2) && Out(st, 9, 0x18) && Out(st, 10, 0xbb) && Out(st, 11, 0x10)
    ensures Reg(next, 5, 0xf1) && Reg(next, 15, 0x0c) && Reg(next, 2, 0x5d) && Reg(next, 12, 0x88)
  {
    hide Leads, Reg, Out;
    assert Reg(next, 5, 0xf1) by {
      Lands(st, scratch, 7, next, 8, 7, 0x23, 2, 3, 0xe2, 14, 2, 0, 5, 0xf1);
    }
    assert Reg(next, 15, 0x0c) by {
      Lands(st, scratch, 7, next, 9, 8, 0xe2, 14, 2, 0x18, 1, 8, 1, 15, 0x0c);
    }
    assert Reg(next, 2, 0x5d) by {
      Lands(st, scratch, 7, next, 10, 9, 0x18, 1, 8, 0xbb, 11, 11, 6, 2, 0x5d);
    }
    assert Reg(next, 12, 0x88) by {
      Lands(st, scratch, 7, next, 11, 10, 0xbb, 11, 11, 0x10, 1, 0, 7, 12, 0x88);
    }
  }

  lemma Land7d(st: State, scratch: Registers, next: State)
    requires Leads(st, scratch, 7, next)
    requires Out(st, 11, 0x10) && Out(st, 12, 0x18) && Out(st, 13, 0x25) && Out(st, 14, 0x42) && Out(st, 15, 0x69)
    ensures Reg(next, 3, 0x0c) && Reg(next, 11, 0x12) && Reg(next, 10, 0xa1) && Reg(next, 13, 0x34)
  {
    hide Leads, Reg, Out;
    assert Reg(next, 3, 0x0c) by {
      Lands(st, scratch, 7, next, 12, 11, 0x10, 1, 0, 0x18, 1, 8, 12, 3, 0x0c);
    }
    assert Reg(next, 11, 0x12) by {
      Lands(st, scratch, 7, next, 13, 12, 0x18, 1, 8, 0x25, 2, 5, 2, 11, 0x12);
    }
    assert Reg(next, 10, 0xa1) by {
      Lands(st, scratch, 7, next, 14, 13, 0x25, 2, 5, 0x42, 4, 2, 13, 10, 0xa1);
    }
    assert Reg(next, 13, 0x34) by {
      Lands(st, scratch, 7, next, 15, 14, 0x42, 4, 2, 0x69, 6, 9, 14, 13, 0x34);
    }
  }

  lemma Round7(st: State, scratch: Registers, next: State)
    requires Leads(st, scratch, 7, next) && At(st, 0, 0x9bc15469, 0x80, 0x80)
    requires Reg(st, 0, 0x9b) && Reg(st, 1, 0xc1) && Reg(st, 2, 0x54) && Reg(st, 3, 0x69)
    requires Reg(st, 4, 0x14) && Reg(st, 5, 0x99) && Reg(st, 6, 0x7f) && Reg(st, 7, 0x6c)
    requires Reg(st, 8, 0xc7) && Reg(st, 9, 0x99) && Reg(st, 10, 0x7f) && Reg(st, 11, 0x6c)
    requires Reg(st, 12, 0xf2) && Reg(st, 13, 0x74) && Reg(st, 14, 0x79) && Reg(st, 15, 0x9a)
    ensures At(next, 0, 0x509289bc, 0x40, 0x4c)
    ensures Reg(next, 0, 0x55) && Reg(next, 1, 0xec) && Reg(next, 2, 0x5d) && Reg(next, 3, 0x0c)
    ensures Reg(next, 4, 0x03) && Reg(next, 5, 0xf1) && Reg(next, 6, 0x18) && Reg(next, 7, 0xe4)
    ensures Reg(next, 8, 0xdc) && Reg(next, 9, 0xaf) && Reg(next, 10, 0xa1) && Reg(next, 11, 0x12)
    ensures Reg(next, 12, 0x88) && Reg(next, 13, 0x34) && Reg(next, 14, 0x11) && Reg(next, 15, 0x0c)
  {
    hide Leads, At, Reg, Out;
    Mix7(st);
    Ends(st, scratch, 7, next, 0x509289bc, 0x40, 0x4c);
    Land7a(st, scratch, next);
    Land7b(st, scratch, next);
    Land7c(st, scratch, next);
    Land7d(st, scratch, next);
  }

  // Round 6

  lemma Turns6a()
    ensures Turn(0x509289bc, 0x40, 0x4c, 0x55, 0xec, 0xa84944de, 0x45, 0x13, 0x6f)
    ensures Turn(0xa84944de, 0x45, 0x13, 0xec, 0x5d, 0xd424a26f, 0x89, 0xb8, 0x6d)
  {
    hide Seeks, Turn;
    TurnsAtOnce(0x509289bc, 5, 0, 9, 2, 0x89b, 12, 0x55, 5, 5, 0xec, 14, 12, 0x40, 0x45, 4, 5, 8, 3, 0x4c, 0x13, 1, 3,
                8, 13, 0xa84944de, 0x6f);
    TurnsAtOnce(0xa84944de, 10, 8, 4, 9, 0x44d, 14, 0xec, 14, 12, 0x5d, 5, 13, 0x45, 0x89, 8, 9, 3, 0, 0x13, 0xb8, 11,
                8, 3, 7, 0xd424a26f, 0x6d);
  }

  lemma Turns6b()
    ensures Turn(0xd424a26f, 0x89, 0xb8, 0x5d, 0x0c, 0xf509289b, 0x12, 0x80, 0xbb)
    ensures Turn(0xf509289b, 0x12, 0x80, 0x0c, 0x03, 0x7a84944d, 0x0b, 0x85, 0x17)
  {
    hide Seeks, Turn;
    Finds(false, 0xd424a26f, 13, 4, 2, 4, 0xa26, 15, 0x5d, 5, 13, 0x89, 0x12, 1, 2, 7, 7, 0, 7);
    Finds(true, 0xea125137, 14, 10, 1, 2, 0x513, 7, 0x5d, 5, 13, 0x31, 0x80, 8, 0, 11, 11, 1, 0xb0);
    Misses(true, 0xd424a26f, 13, 4, 2, 4, 0xa26, 15, 0x5d, 5, 13, 0xb8, 0x31, 3, 1, 5, 6, 0, 0xea125137, 0xea125137,
           0x80, 0xb0);
    Turns(0xd424a26f, 0x89, 0xb8, 0x5d, 0x0c, 0, 12, 0xd424a26f, 0x12, 7, 0xea125137, 0x80, 11, 14, 10, 1, 2, 0x513,
          7, 0xf509289b, 0xbb);
    TurnsAtOnce(0xf509289b, 15, 5, 0, 9, 0x289, 11, 0x0c, 0, 12, 0x03, 0, 3, 0x12, 0x0b, 0, 11, 3, 4, 0x80, 0x85, 8,
                5, 1, 3, 0x7a84944d, 0x17);
  }

  lemma Turns6c()
    ensures Turn(0x7a84944d, 0x0b, 0x85, 0x03, 0xf1, 0x3d424a26, 0x84, 0x0c, 0xe6)
    ensures Turn(0x3d424a26, 0x84, 0x0c, 0xf1, 0x18, 0x9ea12513, 0x50, 0xbf, 0xfe)
  {
    hide Seeks, Turn;
    TurnsAtOnce(0x7a84944d, 7, 10, 8, 4, 0x944, 13, 0x03, 0, 3, 0xf1, 15, 1, 0x0b, 0x84, 8, 4, 9, 7, 0x85, 0x0c, 0,
                12, 1, 1, 0x3d424a26, 0xe6);
    TurnsAtOnce(0x3d424a26, 3, 13, 4, 2, 0x4a2, 6, 0xf1, 15, 1, 0x18, 1, 8, 0x84, 0x50, 5, 0, 8, 6, 0x0c, 0xbf, 11,
                15, 14, 12, 0x9ea12513, 0xfe);
  }

  lemma Turns6d()
    ensures Turn(0x9ea12513, 0x50, 0xbf, 0x18, 0xe4, 0x4f509289, 0xd6, 0x78, 0xe5)
    ensures Turn(0x4f509289, 0xd6, 0x78, 0xe4, 0xdc, 0x27a84944, 0x81, 0x2c, 0xfa)
  {
    hide Seeks, Turn;
    TurnsAtOnce(0x9ea12513, 9, 14, 10, 1, 0x251, 3, 0x18, 1, 8, 0xe4, 14, 4, 0x50, 0xd6, 13, 6, 8, 1, 0xbf, 0x78, 7,
                8, 0, 5, 0x4f509289, 0xe5);
    TurnsAtOnce(0x4f509289, 4, 15, 5, 0, 0x928, 9, 0xe4, 14, 4, 0xdc, 13, 12, 0xd6, 0x81, 8, 1, 8, 6, 0x78, 0x2c, 2,
                12, 2, 1, 0x27a84944, 0xfa);
  }

  lemma Turns6e()
    ensures Turn(0x27a84944, 0x81, 0x2c, 0xdc, 0xaf, 0x93d424a2, 0x7c, 0xa0, 0x4c)
    ensures Turn(0x93d424a2, 0x7c, 0xa0, 0xaf, 0xa1, 0x24f50928, 0xb8, 0x60, 0x16)
  {
    hide Seeks, Turn;
    TurnsAtOnce(0x27a84944, 2, 7, 10, 8, 0x494, 4, 0xdc, 13, 12, 0xaf, 10, 15, 0x81, 0x7c, 7, 12, 12, 3, 0x2c, 0xa0,
                10, 0, 14, 7, 0x93d424a2, 0x4c);
    Finds(false, 0x93d424a2, 9, 3, 13, 4, 0x24a, 2, 0xaf, 10, 15, 0x7c, 0xb8, 11, 8, 3, 7, 0, 7);
    Finds(true, 0x49ea1251, 4, 9, 14, 10, 0x125, 1, 0xaf, 10, 15, 0x1b, 0x60, 6, 0, 11, 8, 1, 0xb0);
    Misses(true, 0x93d424a2, 9, 3, 13, 4, 0x24a, 2, 0xaf, 10, 15, 0xa0, 0x1b, 1, 11, 10, 5, 0, 0x49ea1251, 0x49ea1251,
           0x60, 0xb0);
    Turns(0x93d424a2, 0x7c, 0xa0, 0xaf, 0xa1, 10, 1, 0x93d424a2, 0xb8, 7, 0x49ea1251, 0x60, 11, 4, 9, 14, 10, 0x125,
          1, 0x24f50928, 0x16);
  }

  lemma Turns6f()
    ensures Turn(0x24f50928, 0xb8, 0x60, 0xa1, 0x12, 0xa49ea125, 0x58, 0xfc, 0xf9)
    ensures Turn(0xa49ea125, 0x58, 0xfc, 0x12, 0x88, 0x524f5092, 0x0e, 0x88, 0xd5)
  {
    hide Seeks, Turn;
    Finds(false, 0x493d424a, 4, 9, 3, 13, 0x424, 10, 0xa1, 10, 1, 0x70, 0x58, 5, 8, 12, 11, 2, 11);
    Misses(false, 0x927a8494, 9, 2, 7, 10, 0x849, 4, 0xa1, 10, 1, 0x3d, 0x70, 7, 0, 11, 1, 1, 0x493d424a, 0x493d424a,
           0x58, 11);
    Misses(false, 0x24f50928, 2, 4, 15, 5, 0x92, 8, 0xa1, 10, 1, 0xb8, 0x3d, 3, 13, 13, 1, 0, 0x927a8494, 0x493d424a,
           0x58, 11);
    Finds(true, 0x493d424a, 4, 9, 3, 13, 0x424, 10, 0xa1, 10, 1, 0x60, 0xfc, 15, 12, 14, 0, 0, 0xe0);
    Turns(0x24f50928, 0xb8, 0x60, 0xa1, 0x12, 1, 2, 0x493d424a, 0x58, 11, 0x493d424a, 0xfc, 14, 4, 9, 3, 13, 0x424,
          10, 0xa49ea125, 0xf9);
    TurnsAtOnce(0xa49ea125, 10, 4, 9, 14, 0xa12, 5, 0x12, 1, 2, 0x88, 8, 8, 0x58, 0x0e, 0, 14, 8, 13, 0xfc, 0x88, 8,
                8, 5, 1, 0x524f5092, 0xd5);
  }

  lemma Turns6g()
    ensures Turn(0x524f5092, 0x0e, 0x88, 0x88, 0x34, 0x2927a849, 0xe8, 0x4f, 0x16)
    ensures Turn(0x2927a849, 0xe8, 0x4f, 0x34, 0x11, 0x9493d424, 0x05, 0x62, 0x99)
  {
    hide Seeks, Turn;
    TurnsAtOnce(0x524f5092, 5, 2, 4, 15, 0x509, 2, 0x88, 8, 8, 0x34, 3, 4, 0x0e, 0xe8, 14, 8, 2, 2, 0x88, 0x4f, 4, 15,
                2, 0, 0x2927a849, 0x16);
    TurnsAtOnce(0x2927a849, 2, 9, 2, 7, 0xa84, 9, 0x34, 3, 4, 0x11, 1, 1, 0xe8, 0x05, 0, 5, 6, 8, 0x4f, 0x62, 6, 2, 8,
                0, 0x9493d424, 0x99);
  }

  lemma Turns6h()
    ensures Turn(0x9493d424, 0x05, 0x62, 0x11, 0x0c, 0xca49ea12, 0x8a, 0xe4, 0x69)
    ensures Turn(0xca49ea12, 0x8a, 0xe4, 0x0c, 0x55, 0x6524f509, 0x50, 0x29, 0xd3)
  {
    hide Seeks, Turn;
    TurnsAtOnce(0x9493d424, 9, 4, 9, 3, 0xd42, 4, 0x11, 1, 1, 0x0c, 0, 12, 0x05, 0x8a, 8, 10, 14, 5, 0x62, 0xe4, 14,
                4, 6, 7, 0xca49ea12, 0x69);
    TurnsAtOnce(0xca49ea12, 12, 10, 4, 9, 0xea1, 2, 0x0c, 0, 12, 0x55, 5, 5, 0x8a, 0x50, 5, 0, 8, 6, 0xe4, 0x29, 2, 9,
                8, 11, 0x6524f509, 0xd3);
  }

  lemma Mix6(st: State)
    requires At(st, 0, 0x509289bc, 0x40, 0x4c)
    requires Reg(st, 0, 0x55) && Reg(st, 1, 0xec) && Reg(st, 2, 0x5d) && Reg(st, 3, 0x0c)
    requires Reg(st, 4, 0x03) && Reg(st, 5, 0xf1) && Reg(st, 6, 0x18) && Reg(st, 7, 0xe4)
    requires Reg(st, 8, 0xdc) && Reg(st, 9, 0xaf) && Reg(st, 10, 0xa1) && Reg(st, 11, 0x12)
    requires Reg(st, 12, 0x88) && Reg(st, 13, 0x34) && Reg(st, 14, 0x11) && Reg(st, 15, 0x0c)
    ensures At(st, 16, 0x6524f509, 0x50, 0x29)
    ensures Out(st, 0, 0x6f) && Out(st, 1, 0x6d) && Out(st, 2, 0xbb) && Out(st, 3, 0x17)
    ensures Out(st, 4, 0xe6) && Out(st, 5, 0xfe) && Out(st, 6, 0xe5) && Out(st, 7, 0xfa)
    ensures Out(st, 8, 0x4c) && Out(st, 9, 0x16) && Out(st, 10, 0xf9) && Out(st, 11, 0xd5)
    ensures Out(st, 12, 0x16) && Out(st, 13, 0x99) && Out(st, 14, 0x69) && Out(st, 15, 0xd3)
  {
    hide At, Reg, Out, Turn;
    Turns6a();
    Turns6b();
    Turns6c();
    Turns6d();
    Turns6e();
    Turns6f();
    Turns6g();
    Turns6h();
    Take(st, 0, 1, 0x509289bc, 0x40, 0x4c, 0x55, 0xec, 0xa84944de, 0x45, 0x13, 0x6f);
    Take(st, 1, 2, 0xa84944de, 0x45, 0x13, 0xec, 0x5d, 0xd424a26f, 0x89, 0xb8, 0x6d);
    Take(st, 2, 3, 0xd424a26f, 0x89, 0xb8, 0x5d, 0x0c, 0xf509289b, 0x12, 0x80, 0xbb);
    Take(st, 3, 4, 0xf509289b, 0x12, 0x80, 0x0c, 0x03, 0x7a84944d, 0x0b, 0x85, 0x17);
    Take(st, 4, 5, 0x7a84944d, 0x0b, 0x85, 0x03, 0xf1, 0x3d424a26, 0x84, 0x0c, 0xe6);
    Take(st, 5, 6, 0x3d424a26, 0x84, 0x0c, 0xf1, 0x18, 0x9ea12513, 0x50, 0xbf, 0xfe);
    Take(st, 6, 7, 0x9ea12513, 0x50, 0xbf, 0x18, 0xe4, 0x4f509289, 0xd6, 0x78, 0xe5);
    Take(st, 7, 8, 0x4f509289, 0xd6, 0x78, 0xe4, 0xdc, 0x27a84944, 0x81, 0x2c, 0xfa);
    Take(st, 8, 9, 0x27a84944, 0x81, 0x2c, 0xdc, 0xaf, 0x93d424a2, 0x7c, 0xa0, 0x4c);
    Take(st, 9, 10, 0x93d424a2, 0x7c, 0xa0, 0xaf, 0xa1, 0x24f50928, 0xb8, 0x60, 0x16);
    Take(st, 10, 11, 0x24f50928, 0xb8, 0x60, 0xa1, 0x12, 0xa49ea125, 0x58, 0xfc, 0xf9);
    Take(st, 11, 12, 0xa49ea125, 0x58, 0xfc, 0x12, 0x88, 0x524f5092, 0x0e, 0x88, 0xd5);
    Take(st, 12, 13, 0x524f5092, 0x0e, 0x88, 0x88, 0x34, 0x2927a849, 0xe8, 0x4f, 0x16);
    Take(st, 13, 14, 0x2927a849, 0xe8, 0x4f, 0x34, 0x11, 0x9493d424, 0x05, 0x62, 0x99);
    Take(st, 14, 15, 0x9493d424, 0x05, 0x62, 0x11, 0x0c, 0xca49ea12, 0x8a, 0xe4, 0x69);
    Take(st, 15, 0, 0xca49ea12, 0x8a, 0xe4, 0x0c, 0x55, 0x6524f509, 0x50, 0x29, 0xd3);
  }

  lemma Land6a(st: State, scratch: Registers, next: State)
    requires Leads(st, scratch, 6, next)
    requires Out(st, 0, 0x6f) && Out(st, 1, 0x6d) && Out(st, 2, 0xbb) && Out(st, 3, 0x17) && Out(st, 15, 0xd3)
    ensures Reg(next, 8, 0xb7) && Reg(next, 7, 0xb6) && Reg(next, 0, 0xdd) && Reg(next, 1, 0x8b)
  {
    hide Leads, Reg, Out;
    assert Reg(next, 8, 0xb7) by {
      Lands(st, scratch, 6, next, 0, 15, 0xd3, 13, 3, 0x6f, 6, 15, 11, 8, 0xb7);
    }
    assert Reg(next, 7, 0xb6) by {
      Lands(st, scratch, 6, next, 1, 0, 0x6f, 6, 15, 0x6d, 6, 13, 7, 7, 0xb6);
    }
    assert Reg(next, 0, 0xdd) by {
      Lands(st, scratch, 6, next, 2, 1, 0x6d, 6, 13, 0xbb, 11, 11, 8, 0, 0xdd);
    }
    assert Reg(next, 1, 0x8b) by {
      Lands(st, scratch, 6, next, 3, 2, 0xbb, 11, 11, 0x17, 1, 7, 13, 1, 0x8b);
    }
  }

  lemma Land6b(st: State, scratch: Registers, next: State)
    requires Leads(st, scratch, 6, next)
    requires Out(st, 3, 0x17) && Out(st, 4, 0xe6) && Out(st, 5, 0xfe) && Out(st, 6, 0xe5) && Out(st, 7, 0xfa)
    ensures Reg(next, 2, 0xf3) && Reg(next, 6, 0x7f) && Reg(next, 12, 0x72) && Reg(next, 13, 0xfd)
  {
    hide Leads, Reg, Out;
    assert Reg(next, 2, 0xf3) by {
      Lands(st, scratch, 6, next, 4, 3, 0x17, 1, 7, 0xe6, 14, 6, 1, 2, 0xf3);
    }
    assert Reg(next, 6, 0x7f) by {
      Lands(st, scratch, 6, next, 5, 4, 0xe6, 14, 6, 0xfe, 15, 14, 2, 6, 0x7f);
    }
    assert Reg(next, 12, 0x72) by {
      Lands(st, scratch, 6, next, 6, 5, 0xfe, 15, 14, 0xe5, 14, 5, 10, 12, 0x72);
    }
    assert Reg(next, 13, 0xfd) by {
      Lands(st, scratch, 6, next, 7, 6, 0xe5, 14, 5, 0xfa, 15, 10, 6, 13, 0xfd);
    }
  }

  lemma Land6c(st: State, scratch: Registers, next: State)
    requires Leads(st, scratch, 6, next)
    requires Out(st, 7, 0xfa) && Out(st, 8, 0x4c) && Out(st, 9, 0x16) && Out(st, 10, 0xf9) && Out(st, 11, 0xd5)
    ensures Reg(next, 9, 0x26) && Reg(next, 15, 0x0b) && Reg(next, 3, 0x7c) && Reg(next, 4, 0xea)
  {
    hide Leads, Reg, Out;
    assert Reg(next, 9, 0x26) by {
      Lands(st, scratch, 6, next, 8, 7, 0xfa, 15, 10, 0x4c, 4, 12, 14, 9, 0x26);
    }
    assert Reg(next, 15, 0x0b) by {
      Lands(st, scratch, 6, next, 9, 8, 0x4c, 4, 12, 0x16, 1, 6, 12, 15, 0x0b);
    }
    assert Reg(next, 3, 0x7c) by {
      Lands(st, scratch, 6, next, 10, 9, 0x16, 1, 6, 0xf9, 15, 9, 15, 3, 0x7c);
    }
    assert Reg(next, 4, 0xea) by {
      Lands(st, scratch, 6, next, 11, 10, 0xf9, 15, 9, 0xd5, 13, 5, 5, 4, 0xea);
    }
  }

  lemma Land6d(st: State, scratch: Registers, next: State)
    requires Leads(st, scratch, 6, next)
    requires Out(st, 11, 0xd5) && Out(st, 12, 0x16) && Out(st, 13, 0x99) && Out(st, 14, 0x69) && Out(st, 15, 0xd3)
    ensures Reg(next, 10, 0x8b) && Reg(next, 11, 0x4c) && Reg(next, 5, 0xb4) && Reg(next, 14, 0xe9)
  {
    hide Leads, Reg, Out;
    assert Reg(next, 10, 0x8b) by {
      Lands(st, scratch, 6, next, 12, 11, 0xd5, 13, 5, 0x16, 1, 6, 3, 10, 0x8b);
    }
    assert Reg(next, 11, 0x4c) by {
      Lands(st, scratch, 6, next, 13, 12, 0x16, 1, 6, 0x99, 9, 9, 0, 11, 0x4c);
    }
    assert Reg(next, 5, 0xb4) by {
      Lands(st, scratch, 6, next, 14, 13, 0x99, 9, 9, 0x69, 6, 9, 9, 5, 0xb4);
    }
    assert Reg(next, 14, 0xe9) by {
      Lands(st, scratch, 6, next, 15, 14, 0x69, 6, 9, 0xd3, 13, 3, 4, 14, 0xe9);
    }
  }

  lemma Round6(st: State, scratch: Registers, next: State)
    requires Leads(st, scratch, 6, next) && At(st, 0, 0x509289bc, 0x40, 0x4c)
    requires Reg(st, 0, 0x55) && Reg(st, 1, 0xec) && Reg(st, 2, 0x5d) && Reg(st, 3, 0x0c)
    requires Reg(st, 4, 0x03) && Reg(st, 5, 0xf1) && Reg(st, 6, 0x18) && Reg(st, 7, 0xe4)
    requires Reg(st, 8, 0xdc) && Reg(st, 9, 0xaf) && Reg(st, 10, 0xa1) && Reg(st, 11, 0x12)
    requires Reg(st, 12, 0x88) && Reg(st, 13, 0x34) && Reg(st, 14, 0x11) && Reg(st, 15, 0x0c)
    ensures At(next, 0, 0x6524f509, 0x50, 0x29)
    ensures Reg(next, 0, 0xdd) && Reg(next, 1, 0x8b) && Reg(next, 2, 0xf3) && Reg(next, 3, 0x7c)
    ensures Reg(next, 4, 0xea) && Reg(next, 5, 0xb4) && Reg(next, 6, 0x7f) && Reg(next, 7, 0xb6)
    ensures Reg(next, 8, 0xb7) && Reg(next, 9, 0x26) && Reg(next, 10, 0x8b) && Reg(next, 11, 0x4c)
    ensures Reg(next, 12, 0x72) && Reg(next, 13, 0xfd) && Reg(next, 14, 0xe9) && Reg(next, 15, 0x0b)
  {
    hide Leads, At, Reg, Out;
    Mix6(st);
    Ends(st, scratch, 6, next, 0x6524f509, 0x50, 0x29);
    Land6a(st, scratch, next);
    Land6b(st, scratch, next);
    Land6c(st, scratch, next);
    Land6d(st, scratch, next);
  }

  // Round 5

  lemma Turns5a()
    ensures Turn(0x6524f509, 0x50, 0x29, 0xdd, 0x8b, 0xb2927a84, 0x08, 0x22, 0x60)
    ensures Turn(0xb2927a84, 0x08, 0x22, 0x8b, 0xf3, 0x6ca49ea1, 0x41, 0xfd, 0x8b)
  {
    hide Seeks, Turn;
    TurnsAtOnce(0x6524f509, 6, 5, 2, 4, 0xf50, 9, 0xdd, 13, 13, 0x8b, 8, 11, 0x50, 0x08, 0, 8, 7, 11, 0x29, 0x22, 2,
                2, 14, 3, 0xb2927a84, 0x60);
    Finds(false, 0xb2927a84, 11, 2, 9, 2, 0x7a8, 4, 0x8b, 8, 11, 0x08, 0x41, 4, 1, 3, 8, 0, 8);
    Finds(true, 0xd9493d42, 13, 9, 4, 9, 0x3d4, 2, 0x8b, 8, 11, 0x3b, 0xfd, 15, 13, 7, 7, 1, 0x70);
    Misses(true, 0xb2927a84, 11, 2, 9, 2, 0x7a8, 4, 0x8b, 8, 11, 0x22, 0x3b, 3, 11, 8, 8, 0, 0xd9493d42, 0xd9493d42,
           0xfd, 0x70);
    Turns(0xb2927a84, 0x08, 0x22, 0x8b, 0xf3, 15, 3, 0xb2927a84, 0x41, 8, 0xd9493d42, 0xfd, 7, 13, 9, 4, 9, 0x3d4, 2,
          0x6ca49ea1, 0x8b);
  }

  lemma Turns5b()
    ensures Turn(0x6ca49ea1, 0x41, 0xfd, 0xf3, 0x7c, 0xb6524f50, 0xe0, 0x54, 0x4d)
    ensures Turn(0xb6524f50, 0xe0, 0x54, 0x7c, 0xea, 0xdb2927a8, 0xaa, 0x82, 0xe7)
  {
    hide Seeks, Turn;
    TurnsAtOnce(0x6ca49ea1, 6, 12, 10, 4, 0x9ea, 1, 0xf3, 15, 3, 0x7c, 7, 12, 0x41, 0xe0, 14, 0, 9, 1, 0xfd, 0x54, 5,
                4, 3, 12, 0xb6524f50, 0x4d);
    TurnsAtOnce(0xb6524f50, 11, 6, 5, 2, 0x4f5, 0, 0x7c, 7, 12, 0xea, 14, 10, 0xe0, 0xaa, 10, 10, 5, 13, 0x54, 0x82,
                8, 2, 0, 13, 0xdb2927a8, 0xe7);
  }

  lemma Turns5c()
    ensures Turn(0xdb2927a8, 0xaa, 0x82, 0xea, 0xb4, 0x6d9493d4, 0xdb, 0x45, 0x3b)
    ensures Turn(0x6d9493d4, 0xdb, 0x45, 0xb4, 0x7f, 0xb6ca49ea, 0xb4, 0x65, 0x51)
  {
    hide Seeks, Turn;
    TurnsAtOnce(0xdb2927a8, 13, 11, 2, 9, 0x27a, 8, 0xea, 14, 10, 0xb4, 11, 4, 0xaa, 0xdb, 13, 11, 5, 15, 0x82, 0x45,
                4, 5, 8, 3, 0x6d9493d4, 0x3b);
    TurnsAtOnce(0x6d9493d4, 6, 13, 9, 4, 0x93d, 4, 0xb4, 11, 4, 0x7f, 7, 15, 0xdb, 0xb4, 11, 4, 15, 14, 0x45, 0x65, 6,
                5, 2, 6, 0xb6ca49ea, 0x51);
  }

  lemma Turns5d()
    ensures Turn(0xb6ca49ea, 0xb4, 0x65, 0x7f, 0xb6, 0x5b6524f5, 0x7d, 0x1a, 0x5d)
    ensures Turn(0x5b6524f5, 0x7d, 0x1a, 0xb6, 0xb7, 0xadb2927a, 0x6a, 0xed, 0xa4)
  {
    hide Seeks, Turn;
    TurnsAtOnce(0xb6ca49ea, 11, 6, 12, 10, 0x49e, 10, 0x7f, 7, 15, 0xb6, 11, 6, 0xb4, 0x7d, 7, 13, 2, 11, 0x65, 0x1a,
                1, 10, 14, 12, 0x5b6524f5, 0x5d);
    TurnsAtOnce(0x5b6524f5, 5, 11, 6, 5, 0x24f, 5, 0xb6, 11, 6, 0xb7, 11, 7, 0x7d, 0x6a, 6, 10, 15, 3, 0x1a, 0xed, 14,
                13, 1, 8, 0xadb2927a, 0xa4);
  }

  lemma Turns5e()
    ensures Turn(0xadb2927a, 0x6a, 0xed, 0xb7, 0x26, 0xeb6ca49e, 0xe5, 0x5b, 0xcf)
    ensures Turn(0xeb6ca49e, 0xe5, 0x5b, 0x26, 0x8b, 0xf5b6524f, 0xb2, 0xa5, 0x80)
  {
    hide Seeks, Turn;
    Finds(false, 0xd6d9493d, 13, 6, 13, 9, 0x493, 13, 0xb7, 11, 7, 0x84, 0xe5, 14, 5, 8, 9, 1, 9);
    Misses(false, 0xadb2927a, 10, 13, 11, 2, 0x927, 10, 0xb7, 11, 7, 0x6a, 0x84, 8, 4, 9, 7, 0, 0xd6d9493d,
           0xd6d9493d, 0xe5, 9);
    Finds(true, 0xd6d9493d, 13, 6, 13, 9, 0x493, 13, 0xb7, 11, 7, 0xed, 0x5b, 5, 11, 14, 8, 0, 0xe0);
    Turns(0xadb2927a, 0x6a, 0xed, 0xb7, 0x26, 2, 6, 0xd6d9493d, 0xe5, 9, 0xd6d9493d, 0x5b, 14, 13, 6, 13, 9, 0x493,
          13, 0xeb6ca49e, 0xcf);
    TurnsAtOnce(0xeb6ca49e, 14, 11, 6, 12, 0xa49, 14, 0x26, 2, 6, 0x8b, 8, 11, 0xe5, 0xb2, 11, 2, 9, 11, 0x5b, 0xa5,
                10, 5, 0, 0, 0xf5b6524f, 0x80);
  }

  lemma Turns5f()
    ensures Turn(0xf5b6524f, 0xb2, 0xa5, 0x8b, 0x4c, 0xfadb2927, 0x30, 0xe2, 0xb5)
    ensures Turn(0xfadb2927, 0x30, 0xe2, 0x4c, 0x72, 0x7d6d9493, 0xe6, 0x79, 0x61)
  {
    hide Seeks, Turn;
    TurnsAtOnce(0xf5b6524f, 15, 5, 11, 6, 0x524, 15, 0x8b, 8, 11, 0x4c, 4, 12, 0xb2, 0x30, 3, 0, 4, 9, 0xa5, 0xe2, 14,
                2, 15, 6, 0xfadb2927, 0xb5);
    TurnsAtOnce(0xfadb2927, 15, 10, 13, 11, 0x292, 7, 0x4c, 4, 12, 0x72, 7, 2, 0x30, 0xe6, 14, 6, 7, 3, 0xe2, 0x79, 7,
                9, 1, 15, 0x7d6d9493, 0x61);
  }

  lemma Turns5g()
    ensures Turn(0x7d6d9493, 0xe6, 0x79, 0x72, 0xfd, 0xbeb6ca49, 0xf5, 0x98, 0x59)
    ensures Turn(0xbeb6ca49, 0xf5, 0x98, 0xfd, 0xe9, 0xdf5b6524, 0x38, 0xe3, 0xbb)
  {
    hide Seeks, Turn;
    TurnsAtOnce(0x7d6d9493, 7, 13, 6, 13, 0x949, 3, 0x72, 7, 2, 0xfd, 15, 13, 0xe6, 0xf5, 15, 5, 9, 4, 0x79, 0x98, 9,
                8, 10, 2, 0xbeb6ca49, 0x59);
    TurnsAtOnce(0xbeb6ca49, 11, 14, 11, 6, 0xca4, 9, 0xfd, 15, 13, 0xe9, 14, 9, 0xf5, 0x38, 3, 8, 15, 2, 0x98, 0xe3,
                14, 3, 5, 12, 0xdf5b6524, 0xbb);
  }

  lemma Turns5h()
    ensures Turn(0xdf5b6524, 0x38, 0xe3, 0xe9, 0x0b, 0x6fadb292, 0x6e, 0x95, 0x3e)
    ensures Turn(0x6fadb292, 0x6e, 0x95, 0x0b, 0xdd, 0xb7d6d949, 0xd2, 0x3b, 0x5e)
  {
    hide Seeks, Turn;
    TurnsAtOnce(0xdf5b6524, 13, 15, 5, 11, 0x652, 4, 0xe9, 14, 9, 0x0b, 0, 11, 0x38, 0x6e, 6, 14, 9, 5, 0xe3, 0x95, 9,
                5, 3, 8, 0x6fadb292, 0x3e);
    TurnsAtOnce(0x6fadb292, 6, 15, 10, 13, 0xb29, 2, 0x0b, 0, 11, 0xdd, 13, 13, 0x6e, 0xd2, 13, 2, 14, 3, 0x95, 0x3b,
                3, 11, 8, 8, 0xb7d6d949, 0x5e);
  }

  lemma Mix5(st: State)
    requires At(st, 0, 0x6524f509, 0x50, 0x29)
    requires Reg(st, 0, 0xdd) && Reg(st, 1, 0x8b) && Reg(st, 2, 0xf3) && Reg(st, 3, 0x7c)
    requires Reg(st, 4, 0xea) && Reg(st, 5, 0xb4) && Reg(st, 6, 0x7f) && Reg(st, 7, 0xb6)
    requires Reg(st, 8, 0xb7) && Reg(st, 9, 0x26) && Reg(st, 10, 0x8b) && Reg(st, 11, 0x4c)
    requires Reg(st, 12, 0x72) && Reg(st, 13, 0xfd) && Reg(st, 14, 0xe9) && Reg(st, 15, 0x0b)
    ensures At(st, 16, 0xb7d6d949, 0xd2, 0x3b)
    ensures Out(st, 0, 0x60) && Out(st, 1, 0x8b) && Out(st, 2, 0x4d) && Out(st, 3, 0xe7)
    ensures Out(st, 4, 0x3b) && Out(st, 5, 0x51) && Out(st, 6, 0x5d) && Out(st, 7, 0xa4)
    ensures Out(st, 8, 0xcf) && Out(st, 9, 0x80) && Out(st, 10, 0xb5) && Out(st, 11, 0x61)
    ensures Out(st, 12, 0x59) && Out(st, 13, 0xbb) && Out(st, 14, 0x3e) && Out(st, 15, 0x5e)
  {
    hide At, Reg, Out, Turn;
    Turns5a();
    Turns5b();
    Turns5c();
    Turns5d();
    Turns5e();
    Turns5f();
    Turns5g();
    Turns5h();
    Take(st, 0, 1, 0x6524f509, 0x50, 0x29, 0xdd, 0x8b, 0xb2927a84, 0x08, 0x22, 0x60);
    Take(st, 1, 2, 0xb2927a84, 0x08, 0x22, 0x8b, 0xf3, 0x6ca49ea1, 0x41, 0xfd, 0x8b);
    Take(st, 2, 3, 0x6ca49ea1, 0x41, 0xfd, 0xf3, 0x7c, 0xb6524f50, 0xe0, 0x54, 0x4d);
    Take(st, 3, 4, 0xb6524f50, 0xe0, 0x54, 0x7c, 0xea, 0xdb2927a8, 0xaa, 0x82, 0xe7);
    Take(st, 4, 5, 0xdb2927a8, 0xaa, 0x82, 0xea, 0xb4, 0x6d9493d4, 0xdb, 0x45, 0x3b);
    Take(st, 5, 6, 0x6d9493d4, 0xdb, 0x45, 0xb4, 0x7f, 0xb6ca49ea, 0xb4, 0x65, 0x51);
    Take(st, 6, 7, 0xb6ca49ea, 0xb4, 0x65, 0x7f, 0xb6, 0x5b6524f5, 0x7d, 0x1a, 0x5d);
    Take(st, 7, 8, 0x5b6524f5, 0x7d, 0x1a, 0xb6, 0xb7, 0xadb2927a, 0x6a, 0xed, 0xa4);
    Take(st, 8, 9, 0xadb2927a, 0x6a, 0xed, 0xb7, 0x26, 0xeb6ca49e, 0xe5, 0x5b, 0xcf);
    Take(st, 9, 10, 0xeb6ca49e, 0xe5, 0x5b, 0x26, 0x8b, 0xf5b6524f, 0xb2, 0xa5, 0x80);
    Take(st, 10, 11, 0xf5b6524f, 0xb2, 0xa5, 0x8b, 0x4c, 0xfadb2927, 0x30, 0xe2, 0xb5);
    Take(st, 11, 12, 0xfadb2927, 0x30, 0xe2, 0x4c, 0x72, 0x7d6d9493, 0xe6, 0x79, 0x61);
    Take(st, 12, 13, 0x7d6d9493, 0xe6, 0x79, 0x72, 0xfd, 0xbeb6ca49, 0xf5, 0x98, 0x59);
    Take(st, 13, 14, 0xbeb6ca49, 0xf5, 0x98, 0xfd, 0xe9, 0xdf5b6524, 0x38, 0xe3, 0xbb);
    Take(st, 14, 15, 0xdf5b6524, 0x38, 0xe3, 0xe9, 0x0b, 0x6fadb292, 0x6e, 0x95, 0x3e);
    Take(st, 15, 0, 0x6fadb292, 0x6e, 0x95, 0x0b, 0xdd, 0xb7d6d949, 0xd2, 0x3b, 0x5e);
  }

  lemma Land5a(st: State, scratch: Registers, next: State)
    requires Leads(st, scratch, 5, next)
    requires Out(st, 0, 0x60) && Out(st, 1, 0x8b) && Out(st, 2, 0x4d) && Out(st, 3, 0xe7) && Out(st, 15, 0x5e)
    ensures Reg(next, 6, 0x30) && Reg(next, 13, 0x45) && Reg(next, 10, 0xa6) && Reg(next, 1, 0xf3)
  {
    hide Leads, Reg, Out;
    assert Reg(next, 6, 0x30) by {
      Lands(st, scratch, 5, next, 0, 15, 0x5e, 5, 14, 0x60, 6, 0, 8, 6, 0x30);
    }
    assert Reg(next, 13, 0x45) by {
      Lands(st, scratch, 5, next, 1, 0, 0x60, 6, 0, 0x8b, 8, 11, 11, 13, 0x45);
    }
    assert Reg(next, 10, 0xa6) by {
      Lands(st, scratch, 5, next, 2, 1, 0x8b, 8, 11, 0x4d, 4, 13, 0, 10, 0xa6);
    }
    assert Reg(next, 1, 0xf3) by {
      Lands(st, scratch, 5, next, 3, 2, 0x4d, 4, 13, 0xe7, 14, 7, 15, 1, 0xf3);
    }
  }

  lemma Land5b(st: State, scratch: Registers, next: State)
    requires Leads(st, scratch, 5, next)
    requires Out(st, 3, 0xe7) && Out(st, 4, 0x3b) && Out(st, 5, 0x51) && Out(st, 6, 0x5d) && Out(st, 7, 0xa4)
    ensures Reg(next, 12, 0x9d) && Reg(next, 7, 0xa8) && Reg(next, 9, 0xae) && Reg(next, 3, 0xd2)
  {
    hide Leads, Reg, Out;
    assert Reg(next, 12, 0x9d) by {
      Lands(st, scratch, 5, next, 4, 3, 0xe7, 14, 7, 0x3b, 3, 11, 3, 12, 0x9d);
    }
    assert Reg(next, 7, 0xa8) by {
      Lands(st, scratch, 5, next, 5, 4, 0x3b, 3, 11, 0x51, 5, 1, 10, 7, 0xa8);
    }
    assert Reg(next, 9, 0xae) by {
      Lands(st, scratch, 5, next, 6, 5, 0x51, 5, 1, 0x5d, 5, 13, 2, 9, 0xae);
    }
    assert Reg(next, 3, 0xd2) by {
      Lands(st, scratch, 5, next, 7, 6, 0x5d, 5, 13, 0xa4, 10, 4, 9, 3, 0xd2);
    }
  }

  lemma Land5c(st: State, scratch: Registers, next: State)
    requires Leads(st, scratch, 5, next)
    requires Out(st, 7, 0xa4) && Out(st, 8, 0xcf) && Out(st, 9, 0x80) && Out(st, 10, 0xb5) && Out(st, 11, 0x61)
    ensures Reg(next, 11, 0x67) && Reg(next, 5, 0xc0) && Reg(next, 15, 0x5a) && Reg(next, 8, 0xb0)
  {
    hide Leads, Reg, Out;
    assert Reg(next, 11, 0x67) by {
      Lands(st, scratch, 5, next, 8, 7, 0xa4, 10, 4, 0xcf, 12, 15, 12, 11, 0x67);
    }
    assert Reg(next, 5, 0xc0) by {
      Lands(st, scratch, 5, next, 9, 8, 0xcf, 12, 15, 0x80, 8, 0, 4, 5, 0xc0);
    }
    assert Reg(next, 15, 0x5a) by {
      Lands(st, scratch, 5, next, 10, 9, 0x80, 8, 0, 0xb5, 11, 5, 5, 15, 0x5a);
    }
    assert Reg(next, 8, 0xb0) by {
      Lands(st, scratch, 5, next, 11, 10, 0xb5, 11, 5, 0x61, 6, 1, 14, 8, 0xb0);
    }
  }

  lemma Land5d(st: State, scratch: Registers, next: State)
    requires Leads(st, scratch, 5, next)
    requires Out(st, 11, 0x61) && Out(st, 12, 0x59) && Out(st, 13, 0xbb) && Out(st, 14, 0x3e) && Out(st, 15, 0x5e)
    ensures Reg(next, 0, 0xac) && Reg(next, 4, 0xdd) && Reg(next, 2, 0x9f) && Reg(next, 14, 0x2f)
  {
    hide Leads, Reg, Out;
    assert Reg(next, 0, 0xac) by {
      Lands(st, scratch, 5, next, 12, 11, 0x61, 6, 1, 0x59, 5, 9, 1, 0, 0xac);
    }
    assert Reg(next, 4, 0xdd) by {
      Lands(st, scratch, 5, next, 13, 12, 0x59, 5, 9, 0xbb, 11, 11, 7, 4, 0xdd);
    }
    assert Reg(next, 2, 0x9f) by {
      Lands(st, scratch, 5, next, 14, 13, 0xbb, 11, 11, 0x3e, 3, 14, 6, 2, 0x9f);
    }
    assert Reg(next, 14, 0x2f) by {
      Lands(st, scratch, 5, next, 15, 14, 0x3e, 3, 14, 0x5e, 5, 14, 13, 14, 0x2f);
    }
  }

  lemma Round5(st: State, scratch: Registers, next: State)
    requires Leads(st, scratch, 5, next) && At(st, 0, 0x6524f509, 0x50, 0x29)
    requires Reg(st, 0, 0xdd) && Reg(st, 1, 0x8b) && Reg(st, 2, 0xf3) && Reg(st, 3, 0x7c)
    requires Reg(st, 4, 0xea) && Reg(st, 5, 0xb4) && Reg(st, 6, 0x7f) && Reg(st, 7, 0xb6)
    requires Reg(st, 8, 0xb7) && Reg(st, 9, 0x26) && Reg(st, 10, 0x8b) && Reg(st, 11, 0x4c)
    requires Reg(st, 12, 0x72) && Reg(st, 13, 0xfd) && Reg(st, 14, 0xe9) && Reg(st, 15, 0x0b)
    ensures At(next, 0, 0xb7d6d949, 0xd2, 0x3b)
    ensures Reg(next, 0, 0xac) && Reg(next, 1, 0xf3) && Reg(next, 2, 0x9f) && Reg(next, 3, 0xd2)
    ensures Reg(next, 4, 0xdd) && Reg(next, 5, 0xc0) && Reg(next, 6, 0x30) && Reg(next, 7, 0xa8)
    ensures Reg(next, 8, 0xb0) && Reg(next, 9, 0xae) && Reg(next, 10, 0xa6) && Reg(next, 11, 0x67)
    ensures Reg(next, 12, 0x9d) && Reg(next, 13, 0x45) && Reg(next, 14, 0x2f) && Reg(next, 15, 0x5a)
  {
    hide Leads, At, Reg, Out;
    Mix5(st);
    Ends(st, scratch, 5, next, 0xb7d6d949, 0xd2, 0x3b);
    Land5a(st, scratch, next);
    Land5b(st, scratch, next);
    Land5c(st, scratch, next);
    Land5d(st, scratch, next);
  }

  // Round 4

  lemma Turns4a()
    ensures Turn(0xb7d6d949, 0xd2, 0x3b, 0xac, 0xf3, 0x5beb6ca4, 0xed, 0xb5, 0x8b)
    ensures Turn(0x5beb6ca4, 0xed, 0xb5, 0xf3, 0x9f, 0x2df5b652, 0x95, 0xcd, 0xe7)
  {
    hide Seeks, Turn;
    TurnsAtOnce(0xb7d6d949, 11, 7, 13, 6, 0xd94, 9, 0xac, 10, 12, 0xf3, 15, 3, 0xd2, 0xed, 14, 13, 1, 8, 0x3b, 0xb5,
                11, 5, 7, 1, 0x5beb6ca4, 0x8b);
    TurnsAtOnce(0x5beb6ca4, 5, 11, 14, 11, 0x6ca, 4, 0xf3, 15, 3, 0x9f, 9, 15, 0xed, 0x95, 9, 5, 3, 8, 0xb5, 0xcd, 12,
                13, 7, 1, 0x2df5b652, 0xe7);
  }

  lemma Turns4b()
    ensures Turn(0x2df5b652, 0x95, 0xcd, 0x9f, 0xd2, 0x16fadb29, 0x47, 0x37, 0xbe)
    ensures Turn(0x16fadb29, 0x47, 0x37, 0xd2, 0xdd, 0x05beb6ca, 0x0b, 0x0e, 0x59)
  {
    hide Seeks, Turn;
    TurnsAtOnce(0x2df5b652, 2, 13, 15, 5, 0xb65, 2, 0x9f, 9, 15, 0xd2, 13, 2, 0x95, 0x47, 4, 7, 1, 12, 0xcd, 0x37, 3,
                7, 6, 15, 0x16fadb29, 0xbe);
    Finds(false, 0x16fadb29, 1, 6, 15, 10, 0xdb2, 9, 0xd2, 13, 2, 0x47, 0x0b, 0, 11, 3, 4, 0, 4);
    Finds(true, 0x0b7d6d94, 0, 11, 7, 13, 0x6d9, 4, 0xd2, 13, 2, 0x5f, 0x0e, 0, 14, 8, 13, 1, 0x80);
    Misses(true, 0x16fadb29, 1, 6, 15, 10, 0xdb2, 9, 0xd2, 13, 2, 0x37, 0x5f, 5, 15, 13, 14, 0, 0x0b7d6d94,
           0x0b7d6d94, 0x0e, 0x80);
    Turns(0x16fadb29, 0x47, 0x37, 0xd2, 0xdd, 13, 13, 0x16fadb29, 0x0b, 4, 0x0b7d6d94, 0x0e, 8, 0, 11, 7, 13, 0x6d9,
          4, 0x05beb6ca, 0x59);
  }

  lemma Turns4c()
    ensures Turn(0x05beb6ca, 0x0b, 0x0e, 0xdd, 0xc0, 0x82df5b65, 0xe3, 0x71, 0xfc)
    ensures Turn(0x82df5b65, 0xe3, 0x71, 0xc0, 0x30, 0xc16fadb2, 0x25, 0x90, 0xae)
  {
    hide Seeks, Turn;
    TurnsAtOnce(0x05beb6ca, 0, 5, 11, 14, 0xb6c, 10, 0xdd, 13, 13, 0xc0, 12, 0, 0x0b, 0xe3, 14, 3, 5, 12, 0x0e, 0x71,
                7, 1, 3, 0, 0x82df5b65, 0xfc);
    TurnsAtOnce(0x82df5b65, 8, 2, 13, 15, 0x5b6, 5, 0xc0, 12, 0, 0x30, 3, 0, 0xe3, 0x25, 2, 5, 10, 14, 0x71, 0x90, 9,
                0, 9, 1, 0xc16fadb2, 0xae);
  }

  lemma Turns4d()
    ensures Turn(0xc16fadb2, 0x25, 0x90, 0x30, 0xa8, 0x60b7d6d9, 0x16, 0xef, 0xe6)
    ensures Turn(0x60b7d6d9, 0x16, 0xef, 0xa8, 0xb0, 0x582df5b6, 0xf6, 0xe2, 0x43)
  {
    hide Seeks, Turn;
    TurnsAtOnce(0xc16fadb2, 12, 1, 6, 15, 0xadb, 2, 0x30, 3, 0, 0xa8, 10, 8, 0x25, 0x16, 1, 6, 5, 14, 0x90, 0xef, 14,
                15, 4, 13, 0x60b7d6d9, 0xe6);
    Finds(false, 0xb05beb6c, 11, 0, 5, 11, 0xeb6, 12, 0xa8, 10, 8, 0xde, 0xf6, 15, 6, 12, 3, 1, 3);
    Misses(false, 0x60b7d6d9, 6, 0, 11, 7, 0xd6d, 9, 0xa8, 10, 8, 0x16, 0xde, 13, 14, 15, 8, 0, 0xb05beb6c,
           0xb05beb6c, 0xf6, 3);
    Finds(true, 0xb05beb6c, 11, 0, 5, 11, 0xeb6, 12, 0xa8, 10, 8, 0xef, 0xe2, 14, 2, 15, 6, 0, 0xf0);
    Turns(0x60b7d6d9, 0x16, 0xef, 0xa8, 0xb0, 11, 0, 0xb05beb6c, 0xf6, 3, 0xb05beb6c, 0xe2, 15, 11, 0, 5, 11, 0xeb6,
          12, 0x582df5b6, 0x43);
  }

  lemma Turns4e()
    ensures Turn(0x582df5b6, 0xf6, 0xe2, 0xb0, 0xae, 0x2c16fadb, 0xde, 0x7f, 0x46)
    ensures Turn(0x2c16fadb, 0xde, 0x7f, 0xae, 0xa6, 0x160b7d6d, 0x60, 0x37, 0xce)
  {
    hide Seeks, Turn;
    TurnsAtOnce(0x582df5b6, 5, 8, 2, 13, 0xf5b, 6, 0xb0, 11, 0, 0xae, 10, 14, 0xf6, 0xde, 13, 14, 15, 8, 0xe2, 0x7f,
                7, 15, 14, 13, 0x2c16fadb, 0x46);
    TurnsAtOnce(0x2c16fadb, 2, 12, 1, 6, 0xfad, 11, 0xae, 10, 14, 0xa6, 10, 6, 0xde, 0x60, 6, 0, 11, 8, 0x7f, 0x37, 3,
                7, 6, 15, 0x160b7d6d, 0xce);
  }

  lemma Turns4f()
    ensures Turn(0x160b7d6d, 0x60, 0x37, 0xa6, 0x67, 0x0b05beb6, 0x10, 0xe4, 0x0d)
    ensures Turn(0x0b05beb6, 0x10, 0xe4, 0x67, 0x9d, 0x0582df5b, 0x7c, 0x46, 0xce)
  {
    hide Seeks, Turn;
    TurnsAtOnce(0x160b7d6d, 1, 6, 0, 11, 0x7d6, 13, 0xa6, 10, 6, 0x67, 6, 7, 0x60, 0x10, 1, 0, 0, 10, 0x37, 0xe4, 14,
                4, 6, 7, 0x0b05beb6, 0x0d);
    TurnsAtOnce(0x0b05beb6, 0, 11, 0, 5, 0xbeb, 6, 0x67, 6, 7, 0x9d, 9, 13, 0x10, 0x7c, 7, 12, 12, 3, 0xe4, 0x46, 4,
                6, 5, 13, 0x0582df5b, 0xce);
  }

  lemma Turns4g()
    ensures Turn(0x0582df5b, 0x7c, 0x46, 0x9d, 0x45, 0x02c16fad, 0x14, 0x65, 0x65)
    ensures Turn(0x02c16fad, 0x14, 0x65, 0x45, 0x2f, 0x8160b7d6, 0x5b, 0xe9, 0x87)
  {
    hide Seeks, Turn;
    TurnsAtOnce(0x0582df5b, 0, 5, 8, 2, 0xdf5, 11, 0x9d, 9, 13, 0x45, 4, 5, 0x7c, 0x14, 1, 4, 1, 0, 0x46, 0x65, 6, 5,
                2, 6, 0x02c16fad, 0x65);
    TurnsAtOnce(0x02c16fad, 0, 2, 12, 1, 0x6fa, 13, 0x45, 4, 5, 0x2f, 2, 15, 0x14, 0x5b, 5, 11, 14, 8, 0x65, 0xe9, 14,
                9, 10, 10, 0x8160b7d6, 0x87);
  }

  lemma Turns4h()
    ensures Turn(0x8160b7d6, 0x5b, 0xe9, 0x2f, 0x5a, 0xc0b05beb, 0x09, 0x38, 0xa8)
    ensures Turn(0xc0b05beb, 0x09, 0x38, 0x5a, 0xac, 0x60582df5, 0xa3, 0x22, 0x4d)
  {
    hide Seeks, Turn;
    TurnsAtOnce(0x8160b7d6, 8, 1, 6, 0, 0xb7d, 6, 0x2f, 2, 15, 0x5a, 5, 10, 0x5b, 0x09, 0, 9, 15, 2, 0xe9, 0x38, 3, 8,
                15, 2, 0xc0b05beb, 0xa8);
    TurnsAtOnce(0xc0b05beb, 12, 0, 11, 0, 0x5be, 11, 0x5a, 5, 10, 0xac, 10, 12, 0x09, 0xa3, 10, 3, 8, 1, 0x38, 0x22,
                2, 2, 14, 3, 0x60582df5, 0x4d);
  }

  lemma Mix4(st: State)
    requires At(st, 0, 0xb7d6d949, 0xd2, 0x3b)
    requires Reg(st, 0, 0xac) && Reg(st, 1, 0xf3) && Reg(st, 2, 0x9f) && Reg(st, 3, 0xd2)
    requires Reg(st, 4, 0xdd) && Reg(st, 5, 0xc0) && Reg(st, 6, 0x30) && Reg(st, 7, 0xa8)
    requires Reg(st, 8, 0xb0) && Reg(st, 9, 0xae) && Reg(st, 10, 0xa6) && Reg(st, 11, 0x67)
    requires Reg(st, 12, 0x9d) && Reg(st, 13, 0x45) && Reg(st, 14, 0x2f) && Reg(st, 15, 0x5a)
    ensures At(st, 16, 0x60582df5, 0xa3, 0x22)
    ensures Out(st, 0, 0x8b) && Out(st, 1, 0xe7) && Out(st, 2, 0xbe) && Out(st, 3, 0x59)
    ensures Out(st, 4, 0xfc) && Out(st, 5, 0xae) && Out(st, 6, 0xe6) && Out(st, 7, 0x43)
    ensures Out(st, 8, 0x46) && Out(st, 9, 0xce) && Out(st, 10, 0x0d) && Out(st, 11, 0xce)
    ensures Out(st, 12, 0x65) && Out(st, 13, 0x87) && Out(st, 14, 0xa8) && Out(st, 15, 0x4d)
  {
    hide At, Reg, Out, Turn;
    Turns4a();
    Turns4b();
    Turns4c();
    Turns4d();
    Turns4e();
    Turns4f();
    Turns4g();
    Turns4h();
    Take(st, 0, 1, 0xb7d6d949, 0xd2, 0x3b, 0xac, 0xf3, 0x5beb6ca4, 0xed, 0xb5, 0x8b);
    Take(st, 1, 2, 0x5beb6ca4, 0xed, 0xb5, 0xf3, 0x9f, 0x2df5b652, 0x95, 0xcd, 0xe7);
    Take(st, 2, 3, 0x2df5b652, 0x95, 0xcd, 0x9f, 0xd2, 0x16fadb29, 0x47, 0x37, 0xbe);
    Take(st, 3, 4, 0x16fadb29, 0x47, 0x37, 0xd2, 0xdd, 0x05beb6ca, 0x0b, 0x0e, 0x59);
    Take(st, 4, 5, 0x05beb6ca, 0x0b, 0x0e, 0xdd, 0xc0, 0x82df5b65, 0xe3, 0x71, 0xfc);
    Take(st, 5, 6, 0x82df5b65, 0xe3, 0x71, 0xc0, 0x30, 0xc16fadb2, 0x25, 0x90, 0xae);
    Take(st, 6, 7, 0xc16fadb2, 0x25, 0x90, 0x30, 0xa8, 0x60b7d6d9, 0x16, 0xef, 0xe6);
    Take(st, 7, 8, 0x60b7d6d9, 0x16, 0xef, 0xa8, 0xb0, 0x582df5b6, 0xf6, 0xe2, 0x43);
    Take(st, 8, 9, 0x582df5b6, 0xf6, 0xe2, 0xb0, 0xae, 0x2c16fadb, 0xde, 0x7f, 0x46);
    Take(st, 9, 10, 0x2c16fadb, 0xde, 0x7f, 0xae, 0xa6, 0x160b7d6d, 0x60, 0x37, 0xce);
    Take(st, 10, 11, 0x160b7d6d, 0x60, 0x37, 0xa6, 0x67, 0x0b05beb6, 0x10, 0xe4, 0x0d);
    Take(st, 11, 12, 0x0b05beb6, 0x10, 0xe4, 0x67, 0x9d, 0x0582df5b, 0x7c, 0x46, 0xce);
    Take(st, 12, 13, 0x0582df5b, 0x7c, 0x46, 0x9d, 0x45, 0x02c16fad, 0x14, 0x65, 0x65);
    Take(st, 13, 14, 0x02c16fad, 0x14, 0x65, 0x45, 0x2f, 0x8160b7d6, 0x5b, 0xe9, 0x87);
    Take(st, 14, 15, 0x8160b7d6, 0x5b, 0xe9, 0x2f, 0x5a, 0xc0b05beb, 0x09, 0x38, 0xa8);
    Take(st, 15, 0, 0xc0b05beb, 0x09, 0x38, 0x5a, 0xac, 0x60582df5, 0xa3, 0x22, 0x4d);
  }

  lemma Land4a(st: State, scratch: Registers, next: State)
    requires Leads(st, scratch, 4, next)
    requires Out(st, 0, 0x8b) && Out(st, 1, 0xe7) && Out(st, 2, 0xbe) && Out(st, 3, 0x59) && Out(st, 15, 0x4d)
    ensures Reg(next, 2, 0xc5) && Reg(next, 8, 0xf3) && Reg(next, 10, 0xdf) && Reg(next, 4, 0x2c)
  {
    hide Leads, Reg, Out;
    assert Reg(next, 2, 0xc5) by {
      Lands(st, scratch, 4, next, 0, 15, 0x4d, 4, 13, 0x8b, 8, 11, 14, 2, 0xc5);
    }
    assert Reg(next, 8, 0xf3) by {
      Lands(st, scratch, 4, next, 1, 0, 0x8b, 8, 11, 0xe7, 14, 7, 3, 8, 0xf3);
    }
    assert Reg(next, 10, 0xdf) by {
      Lands(st, scratch, 4, next, 2, 1, 0xe7, 14, 7, 0xbe, 11, 14, 11, 10, 0xdf);
    }
    assert Reg(next, 4, 0x2c) by {
      Lands(st, scratch, 4, next, 3, 2, 0xbe, 11, 14, 0x59, 5, 9, 4, 4, 0x2c);
    }
  }

  lemma Land4b(st: State, scratch: Registers, next: State)
    requires Leads(st, scratch, 4, next)
    requires Out(st, 3, 0x59) && Out(st, 4, 0xfc) && Out(st, 5, 0xae) && Out(st, 6, 0xe6) && Out(st, 7, 0x43)
    ensures Reg(next, 15, 0xfe) && Reg(next, 3, 0x57) && Reg(next, 13, 0x73) && Reg(next, 12, 0x21)
  {
    hide Leads, Reg, Out;
    assert Reg(next, 15, 0xfe) by {
      Lands(st, scratch, 4, next, 4, 3, 0x59, 5, 9, 0xfc, 15, 12, 9, 15, 0xfe);
    }
    assert Reg(next, 3, 0x57) by {
      Lands(st, scratch, 4, next, 5, 4, 0xfc, 15, 12, 0xae, 10, 14, 8, 3, 0x57);
    }
    assert Reg(next, 13, 0x73) by {
      Lands(st, scratch, 4, next, 6, 5, 0xae, 10, 14, 0xe6, 14, 6, 5, 13, 0x73);
    }
    assert Reg(next, 12, 0x21) by {
      Lands(st, scratch, 4, next, 7, 6, 0xe6, 14, 6, 0x43, 4, 3, 1, 12, 0x21);
    }
  }

  lemma Land4c(st: State, scratch: Registers, next: State)
    requires Leads(st, scratch, 4, next)
    requires Out(st, 7, 0x43) && Out(st, 8, 0x46) && Out(st, 9, 0xce) && Out(st, 10, 0x0d) && Out(st, 11, 0xce)
    ensures Reg(next, 14, 0xa3) && Reg(next, 11, 0x67) && Reg(next, 7, 0x06) && Reg(next, 5, 0xe7)
  {
    hide Leads, Reg, Out;
    assert Reg(next, 14, 0xa3) by {
      Lands(st, scratch, 4, next, 8, 7, 0x43, 4, 3, 0x46, 4, 6, 13, 14, 0xa3);
    }
    assert Reg(next, 11, 0x67) by {
      Lands(st, scratch, 4, next, 9, 8, 0x46, 4, 6, 0xce, 12, 14, 10, 11, 0x67);
    }
    assert Reg(next, 7, 0x06) by {
      Lands(st, scratch, 4, next, 10, 9, 0xce, 12, 14, 0x0d, 0, 13, 12, 7, 0x06);
    }
    assert Reg(next, 5, 0xe7) by {
      Lands(st, scratch, 4, next, 11, 10, 0x0d, 0, 13, 0xce, 12, 14, 6, 5, 0xe7);
    }
  }

  lemma Land4d(st: State, scratch: Registers, next: State)
    requires Leads(st, scratch, 4, next)
    requires Out(st, 11, 0xce) && Out(st, 12, 0x65) && Out(st, 13, 0x87) && Out(st, 14, 0xa8) && Out(st, 15, 0x4d)
    ensures Reg(next, 1, 0x32) && Reg(next, 6, 0xc3) && Reg(next, 9, 0xd4) && Reg(next, 0, 0x26)
  {
    hide Leads, Reg, Out;
    assert Reg(next, 1, 0x32) by {
      Lands(st, scratch, 4, next, 12, 11, 0xce, 12, 14, 0x65, 6, 5, 15, 1, 0x32);
    }
    assert Reg(next, 6, 0xc3) by {
      Lands(st, scratch, 4, next, 13, 12, 0x65, 6, 5, 0x87, 8, 7, 7, 6, 0xc3);
    }
    assert Reg(next, 9, 0xd4) by {
      Lands(st, scratch, 4, next, 14, 13, 0x87, 8, 7, 0xa8, 10, 8, 0, 9, 0xd4);
    }
    assert Reg(next, 0, 0x26) by {
      Lands(st, scratch, 4, next, 15, 14, 0xa8, 10, 8, 0x4d, 4, 13, 2, 0, 0x26);
    }
  }

  lemma Round4(st: State, scratch: Registers, next: State)
    requires Leads(st, scratch, 4, next) && At(st, 0, 0xb7d6d949, 0xd2, 0x3b)
    requires Reg(st, 0, 0xac) && Reg(st, 1, 0xf3) && Reg(st, 2, 0x9f) && Reg(st, 3, 0xd2)
    requires Reg(st, 4, 0xdd) && Reg(st, 5, 0xc0) && Reg(st, 6, 0x30) && Reg(st, 7, 0xa8)
    requires Reg(st, 8, 0xb0) && Reg(st, 9, 0xae) && Reg(st, 10, 0xa6) && Reg(st, 11, 0x67)
    requires Reg(st, 12, 0x9d) && Reg(st, 13, 0x45) && Reg(st, 14, 0x2f) && Reg(st, 15, 0x5a)
    ensures At(next, 0, 0x60582df5, 0xa3, 0x22)
    ensures Reg(next, 0, 0x26) && Reg(next, 1, 0x32) && Reg(next, 2, 0xc5) && Reg(next, 3, 0x57)
    ensures Reg(next, 4, 0x2c) && Reg(next, 5, 0xe7) && Reg(next, 6, 0xc3) && Reg(next, 7, 0x06)
    ensures Reg(next, 8, 0xf3) && Reg(next, 9, 0xd4) && Reg(next, 10, 0xdf) && Reg(next, 11, 0x67)
    ensures Reg(next, 12, 0x21) && Reg(next, 13, 0x73) && Reg(next, 14, 0xa3) && Reg(next, 15, 0xfe)
  {
    hide Leads, At, Reg, Out;
    Mix4(st);
    Ends(st, scratch, 4, next, 0x60582df5, 0xa3, 0x22);
    Land4a(st, scratch, next);
    Land4b(st, scratch, next);
    Land4c(st, scratch, next);
    Land4d(st, scratch, next);
  }

  // Round 3

  lemma Turns3a()
    ensures Turn(0x60582df5, 0xa3, 0x22, 0x26, 0x32, 0xb02c16fa, 0xe9, 0xa0, 0xd8)
    ensures Turn(0xb02c16fa, 0xe9, 0xa0, 0x32, 0xc5, 0xd8160b7d, 0x6b, 0xbe, 0xd1)
  {
    hide Seeks, Turn;
    TurnsAtOnce(0x60582df5, 6, 0, 5, 8, 0x2df, 5, 0x26, 2, 6, 0x32, 3, 2, 0xa3, 0xe9, 14, 9, 10, 10, 0x22, 0xa0, 10,
                0, 14, 7, 0xb02c16fa, 0xd8);
    TurnsAtOnce(0xb02c16fa, 11, 0, 2, 12, 0x16f, 10, 0x32, 3, 2, 0xc5, 12, 5, 0xe9, 0x6b, 6, 11, 5, 4, 0xa0, 0xbe, 11,
                14, 1, 3, 0xd8160b7d, 0xd1);
  }

  lemma Turns3b()
    ensures Turn(0xd8160b7d, 0x6b, 0xbe, 0xc5, 0x57, 0x6c0b05be, 0x88, 0x91, 0x26)
    ensures Turn(0x6c0b05be, 0x88, 0x91, 0x57, 0x2c, 0x360582df, 0xc3, 0xed, 0x36)
  {
    hide Seeks, Turn;
    TurnsAtOnce(0xd8160b7d, 13, 8, 1, 6, 0xb7, 13, 0xc5, 12, 5, 0x57, 5, 7, 0x6b, 0x88, 8, 8, 5, 1, 0xbe, 0x91, 9, 1,
                7, 6, 0x6c0b05be, 0x26);
    TurnsAtOnce(0x6c0b05be, 6, 12, 0, 11, 0x5b, 14, 0x57, 5, 7, 0x2c, 2, 12, 0x88, 0xc3, 12, 3, 5, 10, 0x91, 0xed, 14,
                13, 1, 8, 0x360582df, 0x36);
  }

  lemma Turns3c()
    ensures Turn(0x360582df, 0xc3, 0xed, 0x2c, 0xe7, 0x9b02c16f, 0xdd, 0x16, 0xb7)
    ensures Turn(0x9b02c16f, 0xdd, 0x16, 0xe7, 0xc3, 0xcd8160b7, 0x59, 0xfb, 0xd6)
  {
    hide Seeks, Turn;
    TurnsAtOnce(0x360582df, 3, 6, 0, 5, 0x82d, 15, 0x2c, 2, 12, 0xe7, 14, 7, 0xc3, 0xdd, 13, 13, 11, 0, 0xed, 0x16, 1,
                6, 5, 14, 0x9b02c16f, 0xb7);
    TurnsAtOnce(0x9b02c16f, 9, 11, 0, 2, 0xc16, 15, 0xe7, 14, 7, 0xc3, 12, 3, 0xdd, 0x59, 5, 9, 4, 5, 0x16, 0xfb, 15,
                11, 1, 2, 0xcd8160b7, 0xd6);
  }

  lemma Turns3d()
    ensures Turn(0xcd8160b7, 0x59, 0xfb, 0xc3, 0x06, 0xe6c0b05b, 0x67, 0x3d, 0xdb)
    ensures Turn(0xe6c0b05b, 0x67, 0x3d, 0x06, 0xf3, 0xf360582d, 0x47, 0x03, 0x1f)
  {
    hide Seeks, Turn;
    TurnsAtOnce(0xcd8160b7, 12, 13, 8, 1, 0x60b, 7, 0xc3, 12, 3, 0x06, 0, 6, 0x59, 0x67, 6, 7, 6, 13, 0xfb, 0x3d, 3,
                13, 13, 1, 0xe6c0b05b, 0xdb);
    TurnsAtOnce(0xe6c0b05b, 14, 6, 12, 0, 0xb05, 11, 0x06, 0, 6, 0xf3, 15, 3, 0x67, 0x47, 4, 7, 1, 12, 0x3d, 0x03, 0,
                3, 14, 6, 0xf360582d, 0x1f);
  }

  lemma Turns3e()
    ensures Turn(0xf360582d, 0x47, 0x03, 0xf3, 0xd4, 0xf9b02c16, 0x47, 0x96, 0xf8)
    ensures Turn(0xf9b02c16, 0x47, 0x96, 0xd4, 0xdf, 0x7cd8160b, 0x74, 0xfa, 0x87)
  {
    hide Seeks, Turn;
    TurnsAtOnce(0xf360582d, 15, 3, 6, 0, 0x582, 13, 0xf3, 15, 3, 0xd4, 13, 4, 0x47, 0x47, 4, 7, 1, 12, 0x03, 0x96, 9,
                6, 2, 9, 0xf9b02c16, 0xf8);
    TurnsAtOnce(0xf9b02c16, 15, 9, 11, 0, 0x2c1, 6, 0xd4, 13, 4, 0xdf, 13, 15, 0x47, 0x74, 7, 4, 15, 8, 0x96, 0xfa,
                15, 10, 5, 8, 0x7cd8160b, 0x87);
  }

  lemma Turns3f()
    ensures Turn(0x7cd8160b, 0x74, 0xfa, 0xdf, 0x67, 0xbe6c0b05, 0x17, 0x01, 0x45)
    ensures Turn(0xbe6c0b05, 0x17, 0x01, 0x67, 0x21, 0xdf360582, 0xf0, 0x0c, 0x34)
  {
    hide Seeks, Turn;
    TurnsAtOnce(0x7cd8160b, 7, 12, 13, 8, 0x160, 11, 0xdf, 13, 15, 0x67, 6, 7, 0x74, 0x17, 1, 7, 6, 2, 0xfa, 0x01, 0,
                1, 2, 3, 0xbe6c0b05, 0x45);
    TurnsAtOnce(0xbe6c0b05, 11, 14, 6, 12, 0xb0, 5, 0x67, 6, 7, 0x21, 2, 1, 0x17, 0xf0, 15, 0, 15, 5, 0x01, 0x0c, 0,
                12, 1, 1, 0xdf360582, 0x34);
  }

  lemma Turns3g()
    ensures Turn(0xdf360582, 0xf0, 0x0c, 0x21, 0x73, 0xef9b02c1, 0xee, 0x23, 0xa3)
    ensures Turn(0xef9b02c1, 0xee, 0x23, 0x73, 0xa3, 0xf7cd8160, 0x8a, 0x0b, 0x96)
  {
    hide Seeks, Turn;
    TurnsAtOnce(0xdf360582, 13, 15, 3, 6, 0x58, 2, 0x21, 2, 1, 0x73, 7, 3, 0xf0, 0xee, 14, 14, 13, 0, 0x0c, 0x23, 2,
                3, 13, 2, 0xef9b02c1, 0xa3);
    TurnsAtOnce(0xef9b02c1, 14, 15, 9, 11, 0x2c, 1, 0x73, 7, 3, 0xa3, 10, 3, 0xee, 0x8a, 8, 10, 14, 5, 0x23, 0x0b, 0,
                11, 3, 4, 0xf7cd8160, 0x96);
  }

  lemma Turns3h()
    ensures Turn(0xf7cd8160, 0x8a, 0x0b, 0xa3, 0xfe, 0xfbe6c0b0, 0xde, 0x79, 0xe6)
    ensures Turn(0xfbe6c0b0, 0xde, 0x79, 0xfe, 0x26, 0xfdf36058, 0xe3, 0x91, 0x5a)
  {
    hide Seeks, Turn;
    TurnsAtOnce(0xf7cd8160, 15, 7, 12, 13, 0x816, 0, 0xa3, 10, 3, 0xfe, 15, 14, 0x8a, 0xde, 13, 14, 15, 8, 0x0b, 0x79,
                7, 9, 1, 15, 0xfbe6c0b0, 0xe6);
    TurnsAtOnce(0xfbe6c0b0, 15, 11, 14, 6, 0xc0b, 0, 0xfe, 15, 14, 0x26, 2, 6, 0xde, 0xe3, 14, 3, 5, 12, 0x79, 0x91,
                9, 1, 7, 6, 0xfdf36058, 0x5a);
  }

  lemma Mix3(st: State)
    requires At(st, 0, 0x60582df5, 0xa3, 0x22)
    requires Reg(st, 0, 0x26) && Reg(st, 1, 0x32) && Reg(st, 2, 0xc5) && Reg(st, 3, 0x57)
    requires Reg(st, 4, 0x2c) && Reg(st, 5, 0xe7) && Reg(st, 6, 0xc3) && Reg(st, 7, 0x06)
    requires Reg(st, 8, 0xf3) && Reg(st, 9, 0xd4) && Reg(st, 10, 0xdf) && Reg(st, 11, 0x67)
    requires Reg(st, 12, 0x21) && Reg(st, 13, 0x73) && Reg(st, 14, 0xa3) && Reg(st, 15, 0xfe)
    ensures At(st, 16, 0xfdf36058, 0xe3, 0x91)
    ensures Out(st, 0, 0xd8) && Out(st, 1, 0xd1) && Out(st, 2, 0x26) && Out(st, 3, 0x36)
    ensures Out(st, 4, 0xb7) && Out(st, 5, 0xd6) && Out(st, 6, 0xdb) && Out(st, 7, 0x1f)
    ensures Out(st, 8, 0xf8) && Out(st, 9, 0x87) && Out(st, 10, 0x45) && Out(st, 11, 0x34)
    ensures Out(st, 12, 0xa3) && Out(st, 13, 0x96) && Out(st, 14, 0xe6) && Out(st, 15, 0x5a)
  {
    hide At, Reg, Out, Turn;
    Turns3a();
    Turns3b();
    Turns3c();
    Turns3d();
    Turns3e();
    Turns3f();
    Turns3g();
    Turns3h();
    Take(st, 0, 1, 0x60582df5, 0xa3, 0x22, 0x26, 0x32, 0xb02c16fa, 0xe9, 0xa0, 0xd8);
    Take(st, 1, 2, 0xb02c16fa, 0xe9, 0xa0, 0x32, 0xc5, 0xd8160b7d, 0x6b, 0xbe, 0xd1);
    Take(st, 2, 3, 0xd8160b7d, 0x6b, 0xbe, 0xc5, 0x57, 0x6c0b05be, 0x88, 0x91, 0x26);
    Take(st, 3, 4, 0x6c0b05be, 0x88, 0x91, 0x57, 0x2c, 0x360582df, 0xc3, 0xed, 0x36);
    Take(st, 4, 5, 0x360582df, 0xc3, 0xed, 0x2c, 0xe7, 0x9b02c16f, 0xdd, 0x16, 0xb7);
    Take(st, 5, 6, 0x9b02c16f, 0xdd, 0x16, 0xe7, 0xc3, 0xcd8160b7, 0x59, 0xfb, 0xd6);
    Take(st, 6, 7, 0xcd8160b7, 0x59, 0xfb, 0xc3, 0x06, 0xe6c0b05b, 0x67, 0x3d, 0xdb);
    Take(st, 7, 8, 0xe6c0b05b, 0x67, 0x3d, 0x06, 0xf3, 0xf360582d, 0x47, 0x03, 0x1f);
    Take(st, 8, 9, 0xf360582d, 0x47, 0x03, 0xf3, 0xd4, 0xf9b02c16, 0x47, 0x96, 0xf8);
    Take(st, 9, 10, 0xf9b02c16, 0x47, 0x96, 0xd4, 0xdf, 0x7cd8160b, 0x74, 0xfa, 0x87);
    Take(st, 10, 11, 0x7cd8160b, 0x74, 0xfa, 0xdf, 0x67, 0xbe6c0b05, 0x17, 0x01, 0x45);
    Take(st, 11, 12, 0xbe6c0b05, 0x17, 0x01, 0x67, 0x21, 0xdf360582, 0xf0, 0x0c, 0x34);
    Take(st, 12, 13, 0xdf360582, 0xf0, 0x0c, 0x21, 0x73, 0xef9b02c1, 0xee, 0x23, 0xa3);
    Take(st, 13, 14, 0xef9b02c1, 0xee, 0x23, 0x73, 0xa3, 0xf7cd8160, 0x8a, 0x0b, 0x96);
    Take(st, 14, 15, 0xf7cd8160, 0x8a, 0x0b, 0xa3, 0xfe, 0xfbe6c0b0, 0xde, 0x79, 0xe6);
    Take(st, 15, 0, 0xfbe6c0b0, 0xde, 0x79, 0xfe, 0x26, 0xfdf36058, 0xe3, 0x91, 0x5a);
  }

  lemma Land3a(st: State, scratch: Registers, next: State)
    requires Leads(st, scratch, 3, next)
    requires Out(st, 0, 0xd8) && Out(st, 1, 0xd1) && Out(st, 2, 0x26) && Out(st, 3, 0x36) && Out(st, 15, 0x5a)
    ensures Reg(next, 9, 0x6c) && Reg(next, 6, 0x68) && Reg(next, 3, 0x93) && Reg(next, 5, 0x1b)
  {
    hide Leads, Reg, Out;
    assert Reg(next, 9, 0x6c) by {
      Lands(st, scratch, 3, next, 0, 15, 0x5a, 5, 10, 0xd8, 13, 8, 4, 9, 0x6c);
    }
    assert Reg(next, 6, 0x68) by {
      Lands(st, scratch, 3, next, 1, 0, 0xd8, 13, 8, 0xd1, 13, 1, 5, 6, 0x68);
    }
    assert Reg(next, 3, 0x93) by {
      Lands(st, scratch, 3, next, 2, 1, 0xd1, 13, 1, 0x26, 2, 6, 2, 3, 0x93);
    }
    assert Reg(next, 5, 0x1b) by {
      Lands(st, scratch, 3, next, 3, 2, 0x26, 2, 6, 0x36, 3, 6, 1, 5, 0x1b);
    }
  }

  lemma Land3b(st: State, scratch: Registers, next: State)
    requires Leads(st, scratch, 3, next)
    requires Out(st, 3, 0x36) && Out(st, 4, 0xb7) && Out(st, 5, 0xd6) && Out(st, 6, 0xdb) && Out(st, 7, 0x1f)
    ensures Reg(next, 7, 0x5b) && Reg(next, 4, 0xeb) && Reg(next, 11, 0x6d) && Reg(next, 15, 0x8f)
  {
    hide Leads, Reg, Out;
    assert Reg(next, 7, 0x5b) by {
      Lands(st, scratch, 3, next, 4, 3, 0x36, 3, 6, 0xb7, 11, 7, 9, 7, 0x5b);
    }
    assert Reg(next, 4, 0xeb) by {
      Lands(st, scratch, 3, next, 5, 4, 0xb7, 11, 7, 0xd6, 13, 6, 14, 4, 0xeb);
    }
    assert Reg(next, 11, 0x6d) by {
      Lands(st, scratch, 3, next, 6, 5, 0xd6, 13, 6, 0xdb, 13, 11, 12, 11, 0x6d);
    }
    assert Reg(next, 15, 0x8f) by {
      Lands(st, scratch, 3, next, 7, 6, 0xdb, 13, 11, 0x1f, 1, 15, 6, 15, 0x8f);
    }
  }

  lemma Land3c(st: State, scratch: Registers, next: State)
    requires Leads(st, scratch, 3, next)
    requires Out(st, 7, 0x1f) && Out(st, 8, 0xf8) && Out(st, 9, 0x87) && Out(st, 10, 0x45) && Out(st, 11, 0x34)
    ensures Reg(next, 2, 0xfc) && Reg(next, 0, 0x43) && Reg(next, 12, 0xa2) && Reg(next, 8, 0x9a)
  {
    hide Leads, Reg, Out;
    assert Reg(next, 2, 0xfc) by {
      Lands(st, scratch, 3, next, 8, 7, 0x1f, 1, 15, 0xf8, 15, 8, 15, 2, 0xfc);
    }
    assert Reg(next, 0, 0x43) by {
      Lands(st, scratch, 3, next, 9, 8, 0xf8, 15, 8, 0x87, 8, 7, 7, 0, 0x43);
    }
    assert Reg(next, 12, 0xa2) by {
      Lands(st, scratch, 3, next, 10, 9, 0x87, 8, 7, 0x45, 4, 5, 3, 12, 0xa2);
    }
    assert Reg(next, 8, 0x9a) by {
      Lands(st, scratch, 3, next, 11, 10, 0x45, 4, 5, 0x34, 3, 4, 8, 8, 0x9a);
    }
  }

  lemma Land3d(st: State, scratch: Registers, next: State)
    requires Leads(st, scratch, 3, next)
    requires Out(st, 11, 0x34) && Out(st, 12, 0xa3) && Out(st, 13, 0x96) && Out(st, 14, 0xe6) && Out(st, 15, 0x5a)
    ensures Reg(next, 10, 0x51) && Reg(next, 1, 0xcb) && Reg(next, 13, 0x73) && Reg(next, 14, 0x2d)
  {
    hide Leads, Reg, Out;
    assert Reg(next, 10, 0x51) by {
      Lands(st, scratch, 3, next, 12, 11, 0x34, 3, 4, 0xa3, 10, 3, 11, 10, 0x51);
    }
    assert Reg(next, 1, 0xcb) by {
      Lands(st, scratch, 3, next, 13, 12, 0xa3, 10, 3, 0x96, 9, 6, 13, 1, 0xcb);
    }
    assert Reg(next, 13, 0x73) by {
      Lands(st, scratch, 3, next, 14, 13, 0x96, 9, 6, 0xe6, 14, 6, 0, 13, 0x73);
    }
    assert Reg(next, 14, 0x2d) by {
      Lands(st, scratch, 3, next, 15, 14, 0xe6, 14, 6, 0x5a, 5, 10, 10, 14, 0x2d);
    }
  }

  lemma Round3(st: State, scratch: Registers, next: State)
    requires Leads(st, scratch, 3, next) && At(st, 0, 0x60582df5, 0xa3, 0x22)
    requires Reg(st, 0, 0x26) && Reg(st, 1, 0x32) && Reg(st, 2, 0xc5) && Reg(st, 3, 0x57)
    requires Reg(st, 4, 0x2c) && Reg(st, 5, 0xe7) && Reg(st, 6, 0xc3) && Reg(st, 7, 0x06)
    requires Reg(st, 8, 0xf3) && Reg(st, 9, 0xd4) && Reg(st, 10, 0xdf) && Reg(st, 11, 0x67)
    requires Reg(st, 12, 0x21) && Reg(st, 13, 0x73) && Reg(st, 14, 0xa3) && Reg(st, 15, 0xfe)
    ensures At(next, 0, 0xfdf36058, 0xe3, 0x91)
    ensures Reg(next, 0, 0x43) && Reg(next, 1, 0xcb) && Reg(next, 2, 0xfc) && Reg(next, 3, 0x93)
    ensures Reg(next, 4, 0xeb) && Reg(next, 5, 0x1b) && Reg(next, 6, 0x68) && Reg(next, 7, 0x5b)
    ensures Reg(next, 8, 0x9a) && Reg(next, 9, 0x6c) && Reg(next, 10, 0x51) && Reg(next, 11, 0x6d)
    ensures Reg(next, 12, 0xa2) && Reg(next, 13, 0x73) && Reg(next, 14, 0x2d) && Reg(next, 15, 0x8f)
  {
    hide Leads, At, Reg, Out;
    Mix3(st);
    Ends(st, scratch, 3, next, 0xfdf36058, 0xe3, 0x91);
    Land3a(st, scratch, next);
    Land3b(st, scratch, next);
    Land3c(st, scratch, next);
    Land3d(st, scratch, next);
  }

  // Round 2

  lemma Turns2a()
    ensures Turn(0xfdf36058, 0xe3, 0x91, 0x43, 0xcb, 0xfef9b02c, 0xa1, 0x41, 0xf1)
    ensures Turn(0xfef9b02c, 0xa1, 0x41, 0xcb, 0xfc, 0x7f7cd816, 0xd6, 0x73, 0x6d)
  {
    hide Seeks, Turn;
    TurnsAtOnce(0xfdf36058, 15, 13, 15, 3, 0x605, 8, 0x43, 4, 3, 0xcb, 12, 11, 0xe3, 0xa1, 10, 1, 15, 10, 0x91, 0x41,
                4, 1, 3, 8, 0xfef9b02c, 0xf1);
    TurnsAtOnce(0xfef9b02c, 15, 14, 15, 9, 0xb02, 12, 0xcb, 12, 11, 0xfc, 15, 12, 0xa1, 0xd6, 13, 6, 8, 1, 0x41, 0x73,
                7, 3, 9, 6, 0x7f7cd816, 0x6d);
  }

  lemma Turns2b()
    ensures Turn(0x7f7cd816, 0xd6, 0x73, 0xfc, 0x93, 0xbfbe6c0b, 0x59, 0xf3, 0x96)
    ensures Turn(0xbfbe6c0b, 0x59, 0xf3, 0x93, 0xeb, 0xafef9b02, 0x51, 0x3f, 0x46)
  {
    hide Seeks, Turn;
    TurnsAtOnce(0x7f7cd816, 7, 15, 7, 12, 0xd81, 6, 0xfc, 15, 12, 0x93, 9, 3, 0xd6, 0x59, 5, 9, 4, 5, 0x73, 0xf3, 15,
                3, 0, 1, 0xbfbe6c0b, 0x96);
    Finds(false, 0x5fdf3605, 5, 15, 13, 15, 0x360, 5, 0x93, 9, 3, 0x85, 0x51, 5, 1, 11, 13, 1, 13);
    Misses(false, 0xbfbe6c0b, 11, 15, 11, 14, 0x6c0, 11, 0x93, 9, 3, 0x59, 0x85, 8, 5, 1, 3, 0, 0x5fdf3605,
           0x5fdf3605, 0x51, 13);
    Finds(true, 0x5fdf3605, 5, 15, 13, 15, 0x360, 5, 0x93, 9, 3, 0xf3, 0x3f, 3, 15, 10, 14, 0, 0xa0);
    Turns(0xbfbe6c0b, 0x59, 0xf3, 0x93, 0xeb, 14, 11, 0x5fdf3605, 0x51, 13, 0x5fdf3605, 0x3f, 10, 5, 15, 13, 15,
          0x360, 5, 0xafef9b02, 0x46);
  }

  lemma Turns2c()
    ensures Turn(0xafef9b02, 0x51, 0x3f, 0xeb, 0x1b, 0x57f7cd81, 0x95, 0x43, 0x53)
    ensures Turn(0x57f7cd81, 0x95, 0x43, 0x1b, 0x68, 0x2bfbe6c0, 0xe1, 0x2f, 0x6c)
  {
    hide Seeks, Turn;
    TurnsAtOnce(0xafef9b02, 10, 15, 14, 15, 0x9b0, 2, 0xeb, 14, 11, 0x1b, 1, 11, 0x51, 0x95, 9, 5, 3, 8, 0x3f, 0x43,
                4, 3, 4, 4, 0x57f7cd81, 0x53);
    TurnsAtOnce(0x57f7cd81, 5, 7, 15, 7, 0xcd8, 1, 0x1b, 1, 11, 0x68, 6, 8, 0x95, 0xe1, 14, 1, 3, 4, 0x43, 0x2f, 2,
                15, 0, 0, 0x2bfbe6c0, 0x6c);
  }

  lemma Turns2d()
    ensures Turn(0x2bfbe6c0, 0xe1, 0x2f, 0x68, 0x5b, 0x95fdf360, 0x24, 0xc2, 0xf4)
    ensures Turn(0x95fdf360, 0x24, 0xc2, 0x5b, 0x9a, 0xcafef9b0, 0xf2, 0x68, 0x74)
  {
    hide Seeks, Turn;
    TurnsAtOnce(0x2bfbe6c0, 2, 11, 15, 11, 0xe6c, 0, 0x68, 6, 8, 0x5b, 5, 11, 0xe1, 0x24, 2, 4, 15, 15, 0x2f, 0xc2,
                12, 2, 10, 8, 0x95fdf360, 0xf4);
    TurnsAtOnce(0x95fdf360, 9, 5, 15, 13, 0xf36, 0, 0x5b, 5, 11, 0x9a, 9, 10, 0x24, 0xf2, 15, 2, 10, 14, 0xc2, 0x68,
                6, 8, 14, 9, 0xcafef9b0, 0x74);
  }

  lemma Turns2e()
    ensures Turn(0xcafef9b0, 0xf2, 0x68, 0x9a, 0x6c, 0xf2bfbe6c, 0xc1, 0x4d, 0x1a)
    ensures Turn(0xf2bfbe6c, 0xc1, 0x4d, 0x6c, 0x51, 0xf95fdf36, 0x5f, 0x20, 0x0f)
  {
    hide Seeks, Turn;
    Finds(false, 0xe57f7cd8, 14, 5, 7, 15, 0x7cd, 8, 0x9a, 9, 10, 0x42, 0xc1, 12, 1, 9, 6, 1, 6);
    Misses(false, 0xcafef9b0, 12, 10, 15, 14, 0xf9b, 0, 0x9a, 9, 10, 0xf2, 0x42, 4, 2, 11, 10, 0, 0xe57f7cd8,
           0xe57f7cd8, 0xc1, 6);
    Finds(true, 0xe57f7cd8, 14, 5, 7, 15, 0x7cd, 8, 0x9a, 9, 10, 0x68, 0x4d, 4, 13, 7, 6, 0, 0x70);
    Turns(0xcafef9b0, 0xf2, 0x68, 0x9a, 0x6c, 6, 12, 0xe57f7cd8, 0xc1, 6, 0xe57f7cd8, 0x4d, 7, 14, 5, 7, 15, 0x7cd, 8,
          0xf2bfbe6c, 0x1a);
    TurnsAtOnce(0xf2bfbe6c, 15, 2, 11, 15, 0xbe6, 12, 0x6c, 6, 12, 0x51, 5, 1, 0xc1, 0x5f, 5, 15, 13, 14, 0x4d, 0x20,
                2, 0, 5, 9, 0xf95fdf36, 0x0f);
  }

  lemma Turns2f()
    ensures Turn(0xf95fdf36, 0x5f, 0x20, 0x51, 0x6d, 0xfcafef9b, 0x07, 0x2e, 0xfd)
    ensures Turn(0xfcafef9b, 0x07, 0x2e, 0x6d, 0xa2, 0x7e57f7cd, 0x98, 0xf0, 0x50)
  {
    hide Seeks, Turn;
    TurnsAtOnce(0xf95fdf36, 15, 9, 5, 15, 0xdf3, 6, 0x51, 5, 1, 0x6d, 6, 13, 0x5f, 0x07, 0, 7, 11, 0, 0x20, 0x2e, 2,
                14, 9, 6, 0xfcafef9b, 0xfd);
    TurnsAtOnce(0xfcafef9b, 15, 12, 10, 15, 0xef9, 11, 0x6d, 6, 13, 0xa2, 10, 2, 0x07, 0x98, 9, 8, 10, 2, 0x2e, 0xf0,
                15, 0, 15, 5, 0x7e57f7cd, 0x50);
  }

  lemma Turns2g()
    ensures Turn(0x7e57f7cd, 0x98, 0xf0, 0xa2, 0x73, 0xbf2bfbe6, 0x74, 0xe5, 0xfb)
    ensures Turn(0xbf2bfbe6, 0x74, 0xe5, 0x73, 0x2d, 0x5f95fdf3, 0x40, 0x3d, 0xff)
  {
    hide Seeks, Turn;
    TurnsAtOnce(0x7e57f7cd, 7, 14, 5, 7, 0xf7c, 13, 0xa2, 10, 2, 0x73, 7, 3, 0x98, 0x74, 7, 4, 15, 8, 0xf0, 0xe5, 14,
                5, 8, 9, 0xbf2bfbe6, 0xfb);
    TurnsAtOnce(0xbf2bfbe6, 11, 15, 2, 11, 0xfbe, 6, 0x73, 7, 3, 0x2d, 2, 13, 0x74, 0x40, 4, 0, 14, 2, 0xe5, 0x3d, 3,
                13, 13, 1, 0x5f95fdf3, 0xff);
  }

  lemma Turns2h()
    ensures Turn(0x5f95fdf3, 0x40, 0x3d, 0x2d, 0x8f, 0x2fcafef9, 0xb2, 0xf5, 0x14)
    ensures Turn(0x2fcafef9, 0xb2, 0xf5, 0x8f, 0x43, 0x17e57f7c, 0x52, 0x3a, 0x79)
  {
    hide Seeks, Turn;
    TurnsAtOnce(0x5f95fdf3, 5, 15, 9, 5, 0xfdf, 3, 0x2d, 2, 13, 0x8f, 8, 15, 0x40, 0xb2, 11, 2, 9, 11, 0x3d, 0xf5, 15,
                5, 9, 4, 0x2fcafef9, 0x14);
    TurnsAtOnce(0x2fcafef9, 2, 15, 12, 10, 0xfef, 9, 0x8f, 8, 15, 0x43, 4, 3, 0xb2, 0x52, 5, 2, 0, 10, 0xf5, 0x3a, 3,
                10, 3, 12, 0x17e57f7c, 0x79);
  }

  lemma Mix2(st: State)
    requires At(st, 0, 0xfdf36058, 0xe3, 0x91)
    requires Reg(st, 0, 0x43) && Reg(st, 1, 0xcb) && Reg(st, 2, 0xfc) && Reg(st, 3, 0x93)
    requires Reg(st, 4, 0xeb) && Reg(st, 5, 0x1b) && Reg(st, 6, 0x68) && Reg(st, 7, 0x5b)
    requires Reg(st, 8, 0x9a) && Reg(st, 9, 0x6c) && Reg(st, 10, 0x51) && Reg(st, 11, 0x6d)
    requires Reg(st, 12, 0xa2) && Reg(st, 13, 0x73) && Reg(st, 14, 0x2d) && Reg(st, 15, 0x8f)
    ensures At(st, 16, 0x17e57f7c, 0x52, 0x3a)
    ensures Out(st, 0, 0xf1) && Out(st, 1, 0x6d) && Out(st, 2, 0x96) && Out(st, 3, 0x46)
    ensures Out(st, 4, 0x53) && Out(st, 5, 0x6c) && Out(st, 6, 0xf4) && Out(st, 7, 0x74)
    ensures Out(st, 8, 0x1a) && Out(st, 9, 0x0f) && Out(st, 10, 0xfd) && Out(st, 11, 0x50)
    ensures Out(st, 12, 0xfb) && Out(st, 13, 0xff) && Out(st, 14, 0x14) && Out(st, 15, 0x79)
  {
    hide At, Reg, Out, Turn;
    Turns2a();
    Turns2b();
    Turns2c();
    Turns2d();
    Turns2e();
    Turns2f();
    Turns2g();
    Turns2h();
    Take(st, 0, 1, 0xfdf36058, 0xe3, 0x91, 0x43, 0xcb, 0xfef9b02c, 0xa1, 0x41, 0xf1);
    Take(st, 1, 2, 0xfef9b02c, 0xa1, 0x41, 0xcb, 0xfc, 0x7f7cd816, 0xd6, 0x73, 0x6d);
    Take(st, 2, 3, 0x7f7cd816, 0xd6, 0x73, 0xfc, 0x93, 0xbfbe6c0b, 0x59, 0xf3, 0x96);
    Take(st, 3, 4, 0xbfbe6c0b, 0x59, 0xf3, 0x93, 0xeb, 0xafef9b02, 0x51, 0x3f, 0x46);
    Take(st, 4, 5, 0xafef9b02, 0x51, 0x3f, 0xeb, 0x1b, 0x57f7cd81, 0x95, 0x43, 0x53);
    Take(st, 5, 6, 0x57f7cd81, 0x95, 0x43, 0x1b, 0x68, 0x2bfbe6c0, 0xe1, 0x2f, 0x6c);
    Take(st, 6, 7, 0x2bfbe6c0, 0xe1, 0x2f, 0x68, 0x5b, 0x95fdf360, 0x24, 0xc2, 0xf4);
    Take(st, 7, 8, 0x95fdf360, 0x24, 0xc2, 0x5b, 0x9a, 0xcafef9b0, 0xf2, 0x68, 0x74);
    Take(st, 8, 9, 0xcafef9b0, 0xf2, 0x68, 0x9a, 0x6c, 0xf2bfbe6c, 0xc1, 0x4d, 0x1a);
    Take(st, 9, 10, 0xf2bfbe6c, 0xc1, 0x4d, 0x6c, 0x51, 0xf95fdf36, 0x5f, 0x20, 0x0f);
    Take(st, 10, 11, 0xf95fdf36, 0x5f, 0x20, 0x51, 0x6d, 0xfcafef9b, 0x07, 0x2e, 0xfd);
    Take(st, 11, 12, 0xfcafef9b, 0x07, 0x2e, 0x6d, 0xa2, 0x7e57f7cd, 0x98, 0xf0, 0x50);
    Take(st, 12, 13, 0x7e57f7cd, 0x98, 0xf0, 0xa2, 0x73, 0xbf2bfbe6, 0x74, 0xe5, 0xfb);
    Take(st, 13, 14, 0xbf2bfbe6, 0x74, 0xe5, 0x73, 0x2d, 0x5f95fdf3, 0x40, 0x3d, 0xff);
    Take(st, 14, 15, 0x5f95fdf3, 0x40, 0x3d, 0x2d, 0x8f, 0x2fcafef9, 0xb2, 0xf5, 0x14);
    Take(st, 15, 0, 0x2fcafef9, 0xb2, 0xf5, 0x8f, 0x43, 0x17e57f7c, 0x52, 0x3a, 0x79);
  }

  lemma Land2a(st: State, scratch: Registers, next: State)
    requires Leads(st, scratch, 2, next)
    requires Out(st, 0, 0xf1) && Out(st, 1, 0x6d) && Out(st, 2, 0x96) && Out(st, 3, 0x46) && Out(st, 15, 0x79)
    ensures Reg(next, 9, 0xf8) && Reg(next, 7, 0xb6) && Reg(next, 3, 0xcb) && Reg(next, 2, 0x23)
  {
    hide Leads, Reg, Out;
    assert Reg(next, 9, 0xf8) by {
      Lands(st, scratch, 2, next, 0, 15, 0x79, 7, 9, 0xf1, 15, 1, 5, 9, 0xf8);
    }
    assert Reg(next, 7, 0xb6) by {
      Lands(st, scratch, 2, next, 1, 0, 0xf1, 15, 1, 0x6d, 6, 13, 4, 7, 0xb6);
    }
    assert Reg(next, 3, 0xcb) by {
      Lands(st, scratch, 2, next, 2, 1, 0x6d, 6, 13, 0x96, 9, 6, 14, 3, 0xcb);
    }
    assert Reg(next, 2, 0x23) by {
      Lands(st, scratch, 2, next, 3, 2, 0x96, 9, 6, 0x46, 4, 6, 13, 2, 0x23);
    }
  }

  lemma Land2b(st: State, scratch: Registers, next: State)
    requires Leads(st, scratch, 2, next)
    requires Out(st, 3, 0x46) && Out(st, 4, 0x53) && Out(st, 5, 0x6c) && Out(st, 6, 0xf4) && Out(st, 7, 0x74)
    ensures Reg(next, 15, 0x29) && Reg(next, 14, 0xb6) && Reg(next, 4, 0x7a) && Reg(next, 10, 0x3a)
  {
    hide Leads, Reg, Out;
    assert Reg(next, 15, 0x29) by {
      Lands(st, scratch, 2, next, 4, 3, 0x46, 4, 6, 0x53, 5, 3, 15, 15, 0x29);
    }
    assert Reg(next, 14, 0xb6) by {
      Lands(st, scratch, 2, next, 5, 4, 0x53, 5, 3, 0x6c, 6, 12, 10, 14, 0xb6);
    }
    assert Reg(next, 4, 0x7a) by {
      Lands(st, scratch, 2, next, 6, 5, 0x6c, 6, 12, 0xf4, 15, 4, 6, 4, 0x7a);
    }
    assert Reg(next, 10, 0x3a) by {
      Lands(st, scratch, 2, next, 7, 6, 0xf4, 15, 4, 0x74, 7, 4, 12, 10, 0x3a);
    }
  }

  lemma Land2c(st: State, scratch: Registers, next: State)
    requires Leads(st, scratch, 2, next)
    requires Out(st, 7, 0x74) && Out(st, 8, 0x1a) && Out(st, 9, 0x0f) && Out(st, 10, 0xfd) && Out(st, 11, 0x50)
    ensures Reg(next, 5, 0x0d) && Reg(next, 11, 0x07) && Reg(next, 13, 0xfe) && Reg(next, 8, 0xa8)
  {
    hide Leads, Reg, Out;
    assert Reg(next, 5, 0x0d) by {
      Lands(st, scratch, 2, next, 8, 7, 0x74, 7, 4, 0x1a, 1, 10, 1, 5, 0x0d);
    }
    assert Reg(next, 11, 0x07) by {
      Lands(st, scratch, 2, next, 9, 8, 0x1a, 1, 10, 0x0f, 0, 15, 8, 11, 0x07);
    }
    assert Reg(next, 13, 0xfe) by {
      Lands(st, scratch, 2, next, 10, 9, 0x0f, 0, 15, 0xfd, 15, 13, 7, 13, 0xfe);
    }
    assert Reg(next, 8, 0xa8) by {
      Lands(st, scratch, 2, next, 11, 10, 0xfd, 15, 13, 0x50, 5, 0, 3, 8, 0xa8);
    }
  }

  lemma Land2d(st: State, scratch: Registers, next: State)
    requires Leads(st, scratch, 2, next)
    requires Out(st, 11, 0x50) && Out(st, 12, 0xfb) && Out(st, 13, 0xff) && Out(st, 14, 0x14) && Out(st, 15, 0x79)
    ensures Reg(next, 1, 0x7d) && Reg(next, 12, 0xff) && Reg(next, 6, 0x8a) && Reg(next, 0, 0x3c)
  {
    hide Leads, Reg, Out;
    assert Reg(next, 1, 0x7d) by {
      Lands(st, scratch, 2, next, 12, 11, 0x50, 5, 0, 0xfb, 15, 11, 2, 1, 0x7d);
    }
    assert Reg(next, 12, 0xff) by {
      Lands(st, scratch, 2, next, 13, 12, 0xfb, 15, 11, 0xff, 15, 15, 11, 12, 0xff);
    }
    assert Reg(next, 6, 0x8a) by {
      Lands(st, scratch, 2, next, 14, 13, 0xff, 15, 15, 0x14, 1, 4, 9, 6, 0x8a);
    }
    assert Reg(next, 0, 0x3c) by {
      Lands(st, scratch, 2, next, 15, 14, 0x14, 1, 4, 0x79, 7, 9, 0, 0, 0x3c);
    }
  }

  lemma Round2(st: State, scratch: Registers, next: State)
    requires Leads(st, scratch, 2, next) && At(st, 0, 0xfdf36058, 0xe3, 0x91)
    requires Reg(st, 0, 0x43) && Reg(st, 1, 0xcb) && Reg(st, 2, 0xfc) && Reg(st, 3, 0x93)
    requires Reg(st, 4, 0xeb) && Reg(st, 5, 0x1b) && Reg(st, 6, 0x68) && Reg(st, 7, 0x5b)
    requires Reg(st, 8, 0x9a) && Reg(st, 9, 0x6c) && Reg(st, 10, 0x51) && Reg(st, 11, 0x6d)
    requires Reg(st, 12, 0xa2) && Reg(st, 13, 0x73) && Reg(st, 14, 0x2d) && Reg(st, 15, 0x8f)
    ensures At(next, 0, 0x17e57f7c, 0x52, 0x3a)
    ensures Reg(next, 0, 0x3c) && Reg(next, 1, 0x7d) && Reg(next, 2, 0x23) && Reg(next, 3, 0xcb)
    ensures Reg(next, 4, 0x7a) && Reg(next, 5, 0x0d) && Reg(next, 6, 0x8a) && Reg(next, 7, 0xb6)
    ensures Reg(next, 8, 0xa8) && Reg(next, 9, 0xf8) && Reg(next, 10, 0x3a) && Reg(next, 11, 0x07)
    ensures Reg(next, 12, 0xff) && Reg(next, 13, 0xfe) && Reg(next, 14, 0xb6) && Reg(next, 15, 0x29)
  {
    hide Leads, At, Reg, Out;
    Mix2(st);
    Ends(st, scratch, 2, next, 0x17e57f7c, 0x52, 0x3a);
    Land2a(st, scratch, next);
    Land2b(st, scratch, next);
    Land2c(st, scratch, next);
    Land2d(st, scratch, next);
  }

  // Round 1

  lemma Turns1a()
    ensures Turn(0x17e57f7c, 0x52, 0x3a, 0x3c, 0x7d, 0x0bf2bfbe, 0x7d, 0x13, 0xf6)
    ensures Turn(0x0bf2bfbe, 0x7d, 0x13, 0x7d, 0x23, 0x85f95fdf, 0xf3, 0xa2, 0xf2)
  {
    hide Seeks, Turn;
    TurnsAtOnce(0x17e57f7c, 1, 7, 14, 5, 0x7f7, 12, 0x3c, 3, 12, 0x7d, 7, 13, 0x52, 0x7d, 7, 13, 2, 11, 0x3a, 0x13, 1,
                3, 8, 13, 0x0bf2bfbe, 0xf6);
    TurnsAtOnce(0x0bf2bfbe, 0, 11, 15, 2, 0xbfb, 14, 0x7d, 7, 13, 0x23, 2, 3, 0x7d, 0xf3, 15, 3, 0, 1, 0x13, 0xa2, 10,
                2, 13, 8, 0x85f95fdf, 0xf2);
  }

  lemma Turns1b()
    ensures Turn(0x85f95fdf, 0xf3, 0xa2, 0x23, 0xcb, 0x42fcafef, 0x99, 0x7c, 0x00)
    ensures Turn(0x42fcafef, 0x99, 0x7c, 0xcb, 0x7a, 0x217e57f7, 0x22, 0xb3, 0xa9)
  {
    hide Seeks, Turn;
    TurnsAtOnce(0x85f95fdf, 8, 5, 15, 9, 0x5fd, 15, 0x23, 2, 3, 0xcb, 12, 11, 0xf3, 0x99, 9, 9, 13, 11, 0xa2, 0x7c, 7,
                12, 12, 3, 0x42fcafef, 0x00);
    TurnsAtOnce(0x42fcafef, 4, 2, 15, 12, 0xafe, 15, 0xcb, 12, 11, 0x7a, 7, 10, 0x99, 0x22, 2, 2, 14, 3, 0x7c, 0xb3,
                11, 3, 13, 9, 0x217e57f7, 0xa9);
  }

  lemma Turns1c()
    ensures Turn(0x217e57f7, 0x22, 0xb3, 0x7a, 0x0d, 0x10bf2bfb, 0x7d, 0xb7, 0xc6)
    ensures Turn(0x10bf2bfb, 0x7d, 0xb7, 0x0d, 0x8a, 0x085f95fd, 0x9a, 0x69, 0x45)
  {
    hide Seeks, Turn;
    TurnsAtOnce(0x217e57f7, 2, 1, 7, 14, 0x57f, 7, 0x7a, 7, 10, 0x0d, 0, 13, 0x22, 0x7d, 7, 13, 2, 11, 0xb3, 0xb7, 11,
                7, 12, 5, 0x10bf2bfb, 0xc6);
    TurnsAtOnce(0x10bf2bfb, 1, 0, 11, 15, 0x2bf, 11, 0x0d, 0, 13, 0x8a, 8, 10, 0x7d, 0x9a, 9, 10, 14, 15, 0xb7, 0x69,
                6, 9, 12, 15, 0x085f95fd, 0x45);
  }

  lemma Turns1d()
    ensures Turn(0x085f95fd, 0x9a, 0x69, 0x8a, 0xb6, 0x842fcafe, 0x1c, 0x3e, 0xbf)
    ensures Turn(0x842fcafe, 0x1c, 0x3e, 0xb6, 0xa8, 0x4217e57f, 0x4e, 0xd7, 0xe1)
  {
    hide Seeks, Turn;
    TurnsAtOnce(0x085f95fd, 0, 8, 5, 15, 0x95f, 13, 0x8a, 8, 10, 0xb6, 11, 6, 0x9a, 0x1c, 1, 12, 12, 9, 0x69, 0x3e, 3,
                14, 0, 13, 0x842fcafe, 0xbf);
    TurnsAtOnce(0x842fcafe, 8, 4, 2, 15, 0xcaf, 14, 0xb6, 11, 6, 0xa8, 10, 8, 0x1c, 0x4e, 4, 14, 0, 9, 0x3e, 0xd7, 13,
                7, 4, 10, 0x4217e57f, 0xe1);
  }

  lemma Turns1e()
    ensures Turn(0x4217e57f, 0x4e, 0xd7, 0xa8, 0xf8, 0xa10bf2bf, 0x38, 0x96, 0xda)
    ensures Turn(0xa10bf2bf, 0x38, 0x96, 0xf8, 0x3a, 0xd085f95f, 0x91, 0x89, 0x0c)
  {
    hide Seeks, Turn;
    TurnsAtOnce(0x4217e57f, 4, 2, 1, 7, 0xe57, 15, 0xa8, 10, 8, 0xf8, 15, 8, 0x4e, 0x38, 3, 8, 15, 2, 0xd7, 0x96, 9,
                6, 2, 9, 0xa10bf2bf, 0xda);
    TurnsAtOnce(0xa10bf2bf, 10, 1, 0, 11, 0xf2b, 15, 0xf8, 15, 8, 0x3a, 3, 10, 0x38, 0x91, 9, 1, 7, 6, 0x96, 0x89, 8,
                9, 3, 0, 0xd085f95f, 0x0c);
  }

  lemma Turns1f()
    ensures Turn(0xd085f95f, 0x91, 0x89, 0x3a, 0x07, 0xe842fcaf, 0x7b, 0x48, 0xdb)
    ensures Turn(0xe842fcaf, 0x7b, 0x48, 0x07, 0xff, 0x74217e57, 0x6a, 0x8d, 0x2c)
  {
    hide Seeks, Turn;
    TurnsAtOnce(0xd085f95f, 13, 0, 8, 5, 0xf95, 15, 0x3a, 3, 10, 0x07, 0, 7, 0x91, 0x7b, 7, 11, 7, 12, 0x89, 0x48, 4,
                8, 13, 14, 0xe842fcaf, 0xdb);
    TurnsAtOnce(0xe842fcaf, 14, 8, 4, 2, 0xfca, 15, 0x07, 0, 7, 0xff, 15, 15, 0x7b, 0x6a, 6, 10, 15, 3, 0x48, 0x8d, 8,
                13, 13, 8, 0x74217e57, 0x2c);
  }

  lemma Turns1g()
    ensures Turn(0x74217e57, 0x6a, 0x8d, 0xff, 0xfe, 0xba10bf2b, 0xf5, 0x6b, 0xaa)
    ensures Turn(0xba10bf2b, 0xf5, 0x6b, 0xfe, 0xb6, 0x5d085f95, 0x39, 0x59, 0xf6)
  {
    hide Seeks, Turn;
    TurnsAtOnce(0x74217e57, 7, 4, 2, 1, 0x7e5, 7, 0xff, 15, 15, 0xfe, 15, 14, 0x6a, 0xf5, 15, 5, 9, 4, 0x8d, 0x6b, 6,
                11, 5, 4, 0xba10bf2b, 0xaa);
    TurnsAtOnce(0xba10bf2b, 11, 10, 1, 0, 0xbf2, 11, 0xfe, 15, 14, 0xb6, 11, 6, 0xf5, 0x39, 3, 9, 7, 0, 0x6b, 0x59, 5,
                9, 4, 5, 0x5d085f95, 0xf6);
  }

  lemma Turns1h()
    ensures Turn(0x5d085f95, 0x39, 0x59, 0xb6, 0x29, 0x2e842fca, 0x24, 0x17, 0x46)
    ensures Turn(0x2e842fca, 0x24, 0x17, 0x29, 0x3c, 0x974217e5, 0x2b, 0xc4, 0x84)
  {
    hide Seeks, Turn;
    TurnsAtOnce(0x5d085f95, 5, 13, 0, 8, 0x5f9, 5, 0xb6, 11, 6, 0x29, 2, 9, 0x39, 0x24, 2, 4, 15, 15, 0x59, 0x17, 1,
                7, 6, 2, 0x2e842fca, 0x46);
    TurnsAtOnce(0x2e842fca, 2, 14, 8, 4, 0x2fc, 10, 0x29, 2, 9, 0x3c, 3, 12, 0x24, 0x2b, 2, 11, 3, 8, 0x17, 0xc4, 12,
                4, 11, 5, 0x974217e5, 0x84);
  }

  lemma Mix1(st: State)
    requires At(st, 0, 0x17e57f7c, 0x52, 0x3a)
    requires Reg(st, 0, 0x3c) && Reg(st, 1, 0x7d) && Reg(st, 2, 0x23) && Reg(st, 3, 0xcb)
    requires Reg(st, 4, 0x7a) && Reg(st, 5, 0x0d) && Reg(st, 6, 0x8a) && Reg(st, 7, 0xb6)
    requires Reg(st, 8, 0xa8) && Reg(st, 9, 0xf8) && Reg(st, 10, 0x3a) && Reg(st, 11, 0x07)
    requires Reg(st, 12, 0xff) && Reg(st, 13, 0xfe) && Reg(st, 14, 0xb6) && Reg(st, 15, 0x29)
    ensures At(st, 16, 0x974217e5, 0x2b, 0xc4)
    ensures Out(st, 0, 0xf6) && Out(st, 1, 0xf2) && Out(st, 2, 0x00) && Out(st, 3, 0xa9)
    ensures Out(st, 4, 0xc6) && Out(st, 5, 0x45) && Out(st, 6, 0xbf) && Out(st, 7, 0xe1)
    ensures Out(st, 8, 0xda) && Out(st, 9, 0x0c) && Out(st, 10, 0xdb) && Out(st, 11, 0x2c)
    ensures Out(st, 12, 0xaa) && Out(st, 13, 0xf6) && Out(st, 14, 0x46) && Out(st, 15, 0x84)
  {
    hide At, Reg, Out, Turn;
    Turns1a();
    Turns1b();
    Turns1c();
    Turns1d();
    Turns1e();
    Turns1f();
    Turns1g();
    Turns1h();
    Take(st, 0, 1, 0x17e57f7c, 0x52, 0x3a, 0x3c, 0x7d, 0x0bf2bfbe, 0x7d, 0x13, 0xf6);
    Take(st, 1, 2, 0x0bf2bfbe, 0x7d, 0x13, 0x7d, 0x23, 0x85f95fdf, 0xf3, 0xa2, 0xf2);
    Take(st, 2, 3, 0x85f95fdf, 0xf3, 0xa2, 0x23, 0xcb, 0x42fcafef, 0x99, 0x7c, 0x00);
    Take(st, 3, 4, 0x42fcafef, 0x99, 0x7c, 0xcb, 0x7a, 0x217e57f7, 0x22, 0xb3, 0xa9);
    Take(st, 4, 5, 0x217e57f7, 0x22, 0xb3, 0x7a, 0x0d, 0x10bf2bfb, 0x7d, 0xb7, 0xc6);
    Take(st, 5, 6, 0x10bf2bfb, 0x7d, 0xb7, 0x0d, 0x8a, 0x085f95fd, 0x9a, 0x69, 0x45);
    Take(st, 6, 7, 0x085f95fd, 0x9a, 0x69, 0x8a, 0xb6, 0x842fcafe, 0x1c, 0x3e, 0xbf);
    Take(st, 7, 8, 0x842fcafe, 0x1c, 0x3e, 0xb6, 0xa8, 0x4217e57f, 0x4e, 0xd7, 0xe1);
    Take(st, 8, 9, 0x4217e57f, 0x4e, 0xd7, 0xa8, 0xf8, 0xa10bf2bf, 0x38, 0x96, 0xda);
    Take(st, 9, 10, 0xa10bf2bf, 0x38, 0x96, 0xf8, 0x3a, 0xd085f95f, 0x91, 0x89, 0x0c);
    Take(st, 10, 11, 0xd085f95f, 0x91, 0x89, 0x3a, 0x07, 0xe842fcaf, 0x7b, 0x48, 0xdb);
    Take(st, 11, 12, 0xe842fcaf, 0x7b, 0x48, 0x07, 0xff, 0x74217e57, 0x6a, 0x8d, 0x2c);
    Take(st, 12, 13, 0x74217e57, 0x6a, 0x8d, 0xff, 0xfe, 0xba10bf2b, 0xf5, 0x6b, 0xaa);
    Take(st, 13, 14, 0xba10bf2b, 0xf5, 0x6b, 0xfe, 0xb6, 0x5d085f95, 0x39, 0x59, 0xf6);
    Take(st, 14, 15, 0x5d085f95, 0x39, 0x59, 0xb6, 0x29, 0x2e842fca, 0x24, 0x17, 0x46);
    Take(st, 15, 0, 0x2e842fca, 0x24, 0x17, 0x29, 0x3c, 0x974217e5, 0x2b, 0xc4, 0x84);
  }

  lemma Land1a(st: State, scratch: Registers, next: State)
    requires Leads(st, scratch, 1, next)
    requires Out(st, 0, 0xf6) && Out(st, 1, 0xf2) && Out(st, 2, 0x00) && Out(st, 3, 0xa9) && Out(st, 15, 0x84)
    ensures Reg(next, 10, 0x7b) && Reg(next, 6, 0x79) && Reg(next, 7, 0x00) && Reg(next, 13, 0x54)
  {
    hide Leads, Reg, Out;
    assert Reg(next, 10, 0x7b) by {
      Lands(st, scratch, 1, next, 0, 15, 0x84, 8, 4, 0xf6, 15, 6, 0, 10, 0x7b);
    }
    assert Reg(next, 6, 0x79) by {
      Lands(st, scratch, 1, next, 1, 0, 0xf6, 15, 6, 0xf2, 15, 2, 4, 6, 0x79);
    }
    assert Reg(next, 7, 0x00) by {
      Lands(st, scratch, 1, next, 2, 1, 0xf2, 15, 2, 0x00, 0, 0, 7, 7, 0x00);
    }
    assert Reg(next, 13, 0x54) by {
      Lands(st, scratch, 1, next, 3, 2, 0x00, 0, 0, 0xa9, 10, 9, 8, 13, 0x54);
    }
  }

  lemma Land1b(st: State, scratch: Registers, next: State)
    requires Leads(st, scratch, 1, next)
    requires Out(st, 3, 0xa9) && Out(st, 4, 0xc6) && Out(st, 5, 0x45) && Out(st, 6, 0xbf) && Out(st, 7, 0xe1)
    ensures Reg(next, 0, 0xe3) && Reg(next, 15, 0x22) && Reg(next, 14, 0xdf) && Reg(next, 2, 0xf0)
  {
    hide Leads, Reg, Out;
    assert Reg(next, 0, 0xe3) by {
      Lands(st, scratch, 1, next, 4, 3, 0xa9, 10, 9, 0xc6, 12, 6, 1, 0, 0xe3);
    }
    assert Reg(next, 15, 0x22) by {
      Lands(st, scratch, 1, next, 5, 4, 0xc6, 12, 6, 0x45, 4, 5, 9, 15, 0x22);
    }
    assert Reg(next, 14, 0xdf) by {
      Lands(st, scratch, 1, next, 6, 5, 0x45, 4, 5, 0xbf, 11, 15, 5, 14, 0xdf);
    }
    assert Reg(next, 2, 0xf0) by {
      Lands(st, scratch, 1, next, 7, 6, 0xbf, 11, 15, 0xe1, 14, 1, 6, 2, 0xf0);
    }
  }

  lemma Land1c(st: State, scratch: Registers, next: State)
    requires Leads(st, scratch, 1, next)
    requires Out(st, 7, 0xe1) && Out(st, 8, 0xda) && Out(st, 9, 0x0c) && Out(st, 10, 0xdb) && Out(st, 11, 0x2c)
    ensures Reg(next, 1, 0xed) && Reg(next, 4, 0x06) && Reg(next, 12, 0x6d) && Reg(next, 5, 0x96)
  {
    hide Leads, Reg, Out;
    assert Reg(next, 1, 0xed) by {
      Lands(st, scratch, 1, next, 8, 7, 0xe1, 14, 1, 0xda, 13, 10, 15, 1, 0xed);
    }
    assert Reg(next, 4, 0x06) by {
      Lands(st, scratch, 1, next, 9, 8, 0xda, 13, 10, 0x0c, 0, 12, 3, 4, 0x06);
    }
    assert Reg(next, 12, 0x6d) by {
      Lands(st, scratch, 1, next, 10, 9, 0x0c, 0, 12, 0xdb, 13, 11, 14, 12, 0x6d);
    }
    assert Reg(next, 5, 0x96) by {
      Lands(st, scratch, 1, next, 11, 10, 0xdb, 13, 11, 0x2c, 2, 12, 10, 5, 0x96);
    }
  }

  lemma Land1d(st: State, scratch: Registers, next: State)
    requires Leads(st, scratch, 1, next)
    requires Out(st, 11, 0x2c) && Out(st, 12, 0xaa) && Out(st, 13, 0xf6) && Out(st, 14, 0x46) && Out(st, 15, 0x84)
    ensures Reg(next, 9, 0x55) && Reg(next, 3, 0x7b) && Reg(next, 8, 0x23) && Reg(next, 11, 0x42)
  {
    hide Leads, Reg, Out;
    assert Reg(next, 9, 0x55) by {
      Lands(st, scratch, 1, next, 12, 11, 0x2c, 2, 12, 0xaa, 10, 10, 12, 9, 0x55);
    }
    assert Reg(next, 3, 0x7b) by {
      Lands(st, scratch, 1, next, 13, 12, 0xaa, 10, 10, 0xf6, 15, 6, 11, 3, 0x7b);
    }
    assert Reg(next, 8, 0x23) by {
      Lands(st, scratch, 1, next, 14, 13, 0xf6, 15, 6, 0x46, 4, 6, 13, 8, 0x23);
    }
    assert Reg(next, 11, 0x42) by {
      Lands(st, scratch, 1, next, 15, 14, 0x46, 4, 6, 0x84, 8, 4, 2, 11, 0x42);
    }
  }

  lemma Round1(st: State, scratch: Registers, next: State)
    requires Leads(st, scratch, 1, next) && At(st, 0, 0x17e57f7c, 0x52, 0x3a)
    requires Reg(st, 0, 0x3c) && Reg(st, 1, 0x7d) && Reg(st, 2, 0x23) && Reg(st, 3, 0xcb)
    requires Reg(st, 4, 0x7a) && Reg(st, 5, 0x0d) && Reg(st, 6, 0x8a) && Reg(st, 7, 0xb6)
    requires Reg(st, 8, 0xa8) && Reg(st, 9, 0xf8) && Reg(st, 10, 0x3a) && Reg(st, 11, 0x07)
    requires Reg(st, 12, 0xff) && Reg(st, 13, 0xfe) && Reg(st, 14, 0xb6) && Reg(st, 15, 0x29)
    ensures At(next, 0, 0x974217e5, 0x2b, 0xc4)
    ensures Reg(next, 0, 0xe3) && Reg(next, 1, 0xed) && Reg(next, 2, 0xf0) && Reg(next, 3, 0x7b)
    ensures Reg(next, 4, 0x06) && Reg(next, 5, 0x96) && Reg(next, 6, 0x79) && Reg(next, 7, 0x00)
    ensures Reg(next, 8, 0x23) && Reg(next, 9, 0x55) && Reg(next, 10, 0x7b) && Reg(next, 11, 0x42)
    ensures Reg(next, 12, 0x6d) && Reg(next, 13, 0x54) && Reg(next, 14, 0xdf) && Reg(next, 15, 0x22)
  {
    hide Leads, At, Reg, Out;
    Mix1(st);
    Ends(st, scratch, 1, next, 0x974217e5, 0x2b, 0xc4);
    Land1a(st, scratch, next);
    Land1b(st, scratch, next);
    Land1c(st, scratch, next);
    Land1d(st, scratch, next);
  }

  // Round 0

  lemma Turns0a()
    ensures Turn(0x974217e5, 0x2b, 0xc4, 0xe3, 0xed, 0xcba10bf2, 0x9f, 0x65, 0xc1)
    ensures Turn(0xcba10bf2, 0x9f, 0x65, 0xed, 0xf0, 0xe5d085f9, 0xc5, 0xb1, 0x97)
  {
    hide Seeks, Turn;
    TurnsAtOnce(0x974217e5, 9, 7, 4, 2, 0x17e, 5, 0xe3, 14, 3, 0xed, 14, 13, 0x2b, 0x9f, 9, 15, 11, 12, 0xc4, 0x65, 6,
                5, 2, 6, 0xcba10bf2, 0xc1);
    TurnsAtOnce(0xcba10bf2, 12, 11, 10, 1, 0xbf, 2, 0xed, 14, 13, 0xf0, 15, 0, 0x9f, 0xc5, 12, 5, 13, 7, 0x65, 0xb1,
                11, 1, 6, 15, 0xe5d085f9, 0x97);
  }

  lemma Turns0b()
    ensures Turn(0xe5d085f9, 0xc5, 0xb1, 0xf0, 0x7b, 0x72e842fc, 0xda, 0xd1, 0x07)
    ensures Turn(0x72e842fc, 0xda, 0xd1, 0x7b, 0x06, 0x3974217e, 0xe3, 0x64, 0x1a)
  {
    hide Seeks, Turn;
    TurnsAtOnce(0xe5d085f9, 14, 5, 13, 0, 0x85f, 9, 0xf0, 15, 0, 0x7b, 7, 11, 0xc5, 0xda, 13, 10, 13, 12, 0xb1, 0xd1,
                13, 1, 7, 9, 0x72e842fc, 0x07);
    TurnsAtOnce(0x72e842fc, 7, 2, 14, 8, 0x42f, 12, 0x7b, 7, 11, 0x06, 0, 6, 0xda, 0xe3, 14, 3, 5, 12, 0xd1, 0x64, 6,
                4, 1, 2, 0x3974217e, 0x1a);
  }

  lemma Turns0c()
    ensures Turn(0x3974217e, 0xe3, 0x64, 0x06, 0x96, 0x9cba10bf, 0x22, 0xd6, 0x15)
    ensures Turn(0x9cba10bf, 0x22, 0xd6, 0x96, 0x79, 0xce5d085f, 0x2c, 0x02, 0x28)
  {
    hide Seeks, Turn;
    TurnsAtOnce(0x3974217e, 3, 9, 7, 4, 0x217, 14, 0x06, 0, 6, 0x96, 9, 6, 0xe3, 0x22, 2, 2, 14, 3, 0x64, 0xd6, 13, 6,
                8, 1, 0x9cba10bf, 0x15);
    TurnsAtOnce(0x9cba10bf, 9, 12, 11, 10, 0x10b, 15, 0x96, 9, 6, 0x79, 7, 9, 0x22, 0x2c, 2, 12, 2, 1, 0xd6, 0x02, 0,
                2, 5, 15, 0xce5d085f, 0x28);
  }

  lemma Turns0d()
    ensures Turn(0xce5d085f, 0x2c, 0x02, 0x79, 0x00, 0x672e842f, 0xe3, 0x26, 0x6c)
    ensures Turn(0x672e842f, 0xe3, 0x26, 0x00, 0x23, 0xb3974217, 0x4a, 0x54, 0x14)
  {
    hide Seeks, Turn;
    TurnsAtOnce(0xce5d085f, 12, 14, 5, 13, 0x85, 15, 0x79, 7, 9, 0x00, 0, 0, 0x2c, 0xe3, 14, 3, 5, 12, 0x02, 0x26, 2,
                6, 6, 4, 0x672e842f, 0x6c);
    TurnsAtOnce(0x672e842f, 6, 7, 2, 14, 0x842, 15, 0x00, 0, 0, 0x23, 2, 3, 0xe3, 0x4a, 4, 10, 12, 7, 0x26, 0x54, 5,
                4, 3, 12, 0xb3974217, 0x14);
  }

  lemma Turns0e()
    ensures Turn(0xb3974217, 0x4a, 0x54, 0x23, 0x55, 0xd9cba10b, 0xda, 0x08, 0x29)
    ensures Turn(0xd9cba10b, 0xda, 0x08, 0x55, 0x7b, 0xece5d085, 0x66, 0xa6, 0x67)
  {
    hide Seeks, Turn;
    TurnsAtOnce(0xb3974217, 11, 3, 9, 7, 0x421, 7, 0x23, 2, 3, 0x55, 5, 5, 0x4a, 0xda, 13, 10, 13, 12, 0x54, 0x08, 0,
                8, 7, 11, 0xd9cba10b, 0x29);
    TurnsAtOnce(0xd9cba10b, 13, 9, 12, 11, 0xa10, 11, 0x55, 5, 5, 0x7b, 7, 11, 0xda, 0x66, 6, 6, 10, 12, 0x08, 0xa6,
                10, 6, 1, 4, 0xece5d085, 0x67);
  }

  lemma Turns0f()
    ensures Turn(0xece5d085, 0x66, 0xa6, 0x7b, 0x42, 0xf672e842, 0xfd, 0x44, 0xd5)
    ensures Turn(0xf672e842, 0xfd, 0x44, 0x42, 0x6d, 0x7b397421, 0xb1, 0x74, 0x92)
  {
    hide Seeks, Turn;
    TurnsAtOnce(0xece5d085, 14, 12, 14, 5, 0xd08, 5, 0x7b, 7, 11, 0x42, 4, 2, 0x66, 0xfd, 15, 13, 7, 7, 0xa6, 0x44, 4,
                4, 9, 15, 0xf672e842, 0xd5);
    TurnsAtOnce(0xf672e842, 15, 6, 7, 2, 0xe84, 2, 0x42, 4, 2, 0x6d, 6, 13, 0xfd, 0xb1, 11, 1, 6, 15, 0x44, 0x74, 7,
                4, 15, 8, 0x7b397421, 0x92);
  }

  lemma Turns0g()
    ensures Turn(0x7b397421, 0xb1, 0x74, 0x6d, 0x54, 0x5ece5d08, 0x97, 0x65, 0x70)
    ensures Turn(0x5ece5d08, 0x97, 0x65, 0x54, 0xdf, 0xaf672e84, 0xa1, 0xff, 0x05)
  {
    hide Seeks, Turn;
    Finds(false, 0xbd9cba10, 11, 13, 9, 12, 0xba1, 0, 0x6d, 6, 13, 0xc7, 0x97, 9, 7, 8, 4, 1, 4);
    Misses(false, 0x7b397421, 7, 11, 3, 9, 0x742, 1, 0x6d, 6, 13, 0xb1, 0xc7, 12, 7, 8, 13, 0, 0xbd9cba10, 0xbd9cba10,
           0x97, 4);
    Finds(true, 0xbd9cba10, 11, 13, 9, 12, 0xba1, 0, 0x6d, 6, 13, 0x74, 0x65, 6, 5, 2, 6, 0, 0x20);
    Turns(0x7b397421, 0xb1, 0x74, 0x6d, 0x54, 5, 4, 0xbd9cba10, 0x97, 4, 0xbd9cba10, 0x65, 2, 11, 13, 9, 12, 0xba1, 0,
          0x5ece5d08, 0x70);
    TurnsAtOnce(0x5ece5d08, 5, 14, 12, 14, 0x5d0, 8, 0x54, 5, 4, 0xdf, 13, 15, 0x97, 0xa1, 10, 1, 15, 10, 0x65, 0xff,
                15, 15, 13, 10, 0xaf672e84, 0x05);
  }

  lemma Turns0h()
    ensures Turn(0xaf672e84, 0xa1, 0xff, 0xdf, 0x22, 0x57b39742, 0x11, 0xb7, 0xe4)
    ensures Turn(0x57b39742, 0x11, 0xb7, 0x22, 0xe3, 0xabd9cba1, 0x86, 0x48, 0x3f)
  {
    hide Seeks, Turn;
    TurnsAtOnce(0xaf672e84, 10, 15, 6, 7, 0x2e8, 4, 0xdf, 13, 15, 0x22, 2, 2, 0xa1, 0x11, 1, 1, 4, 6, 0xff, 0xb7, 11,
                7, 12, 5, 0x57b39742, 0xe4);
    TurnsAtOnce(0x57b39742, 5, 7, 11, 3, 0x974, 2, 0x22, 2, 2, 0xe3, 14, 3, 0x11, 0x86, 8, 6, 6, 12, 0xb7, 0x48, 4, 8,
                13, 14, 0xabd9cba1, 0x3f);
  }

  lemma Mix0(st: State)
    requires At(st, 0, 0x974217e5, 0x2b, 0xc4)
    requires Reg(st, 0, 0xe3) && Reg(st, 1, 0xed) && Reg(st, 2, 0xf0) && Reg(st, 3, 0x7b)
    requires Reg(st, 4, 0x06) && Reg(st, 5, 0x96) && Reg(st, 6, 0x79) && Reg(st, 7, 0x00)
    requires Reg(st, 8, 0x23) && Reg(st, 9, 0x55) && Reg(st, 10, 0x7b) && Reg(st, 11, 0x42)
    requires Reg(st, 12, 0x6d) && Reg(st, 13, 0x54) && Reg(st, 14, 0xdf) && Reg(st, 15, 0x22)
    ensures At(st, 16, 0xabd9cba1, 0x86, 0x48)
    ensures Out(st, 0, 0xc1) && Out(st, 1, 0x97) && Out(st, 2, 0x07) && Out(st, 3, 0x1a)
    ensures Out(st, 4, 0x15) && Out(st, 5, 0x28) && Out(st, 6, 0x6c) && Out(st, 7, 0x14)
    ensures Out(st, 8, 0x29) && Out(st, 9, 0x67) && Out(st, 10, 0xd5) && Out(st, 11, 0x92)
    ensures Out(st, 12, 0x70) && Out(st, 13, 0x05) && Out(st, 14, 0xe4) && Out(st, 15, 0x3f)
  {
    hide At, Reg, Out, Turn;
    Turns0a();
    Turns0b();
    Turns0c();
    Turns0d();
    Turns0e();
    Turns0f();
    Turns0g();
    Turns0h();
    Take(st, 0, 1, 0x974217e5, 0x2b, 0xc4, 0xe3, 0xed, 0xcba10bf2, 0x9f, 0x65, 0xc1);
    Take(st, 1, 2, 0xcba10bf2, 0x9f, 0x65, 0xed, 0xf0, 0xe5d085f9, 0xc5, 0xb1, 0x97);
    Take(st, 2, 3, 0xe5d085f9, 0xc5, 0xb1, 0xf0, 0x7b, 0x72e842fc, 0xda, 0xd1, 0x07);
    Take(st, 3, 4, 0x72e842fc, 0xda, 0xd1, 0x7b, 0x06, 0x3974217e, 0xe3, 0x64, 0x1a);
    Take(st, 4, 5, 0x3974217e, 0xe3, 0x64, 0x06, 0x96, 0x9cba10bf, 0x22, 0xd6, 0x15);
    Take(st, 5, 6, 0x9cba10bf, 0x22, 0xd6, 0x96, 0x79, 0xce5d085f, 0x2c, 0x02, 0x28);
    Take(st, 6, 7, 0xce5d085f, 0x2c, 0x02, 0x79, 0x00, 0x672e842f, 0xe3, 0x26, 0x6c);
    Take(st, 7, 8, 0x672e842f, 0xe3, 0x26, 0x00, 0x23, 0xb3974217, 0x4a, 0x54, 0x14);
    Take(st, 8, 9, 0xb3974217, 0x4a, 0x54, 0x23, 0x55, 0xd9cba10b, 0xda, 0x08, 0x29);
    Take(st, 9, 10, 0xd9cba10b, 0xda, 0x08, 0x55, 0x7b, 0xece5d085, 0x66, 0xa6, 0x67);
    Take(st, 10, 11, 0xece5d085, 0x66, 0xa6, 0x7b, 0x42, 0xf672e842, 0xfd, 0x44, 0xd5);
    Take(st, 11, 12, 0xf672e842, 0xfd, 0x44, 0x42, 0x6d, 0x7b397421, 0xb1, 0x74, 0x92);
    Take(st, 12, 13, 0x7b397421, 0xb1, 0x74, 0x6d, 0x54, 0x5ece5d08, 0x97, 0x65, 0x70);
    Take(st, 13, 14, 0x5ece5d08, 0x97, 0x65, 0x54, 0xdf, 0xaf672e84, 0xa1, 0xff, 0x05);
    Take(st, 14, 15, 0xaf672e84, 0xa1, 0xff, 0xdf, 0x22, 0x57b39742, 0x11, 0xb7, 0xe4);
    Take(st, 15, 0, 0x57b39742, 0x11, 0xb7, 0x22, 0xe3, 0xabd9cba1, 0x86, 0x48, 0x3f);
  }

  lemma Land0a(st: State, scratch: Registers, next: State)
    requires Leads(st, scratch, 0, next)
    requires Out(st, 0, 0xc1) && Out(st, 1, 0x97) && Out(st, 2, 0x07) && Out(st, 3, 0x1a) && Out(st, 15, 0x3f)
    ensures Reg(next, 9, 0xe0) && Reg(next, 3, 0xcb) && Reg(next, 15, 0x83) && Reg(next, 6, 0x8d)
  {
    hide Leads, Reg, Out;
    assert Reg(next, 9, 0xe0) by {
      Lands(st, scratch, 0, next, 0, 15, 0x3f, 3, 15, 0xc1, 12, 1, 13, 9, 0xe0);
    }
    assert Reg(next, 3, 0xcb) by {
      Lands(st, scratch, 0, next, 1, 0, 0xc1, 12, 1, 0x97, 9, 7, 2, 3, 0xcb);
    }
    assert Reg(next, 15, 0x83) by {
      Lands(st, scratch, 0, next, 2, 1, 0x97, 9, 7, 0x07, 0, 7, 5, 15, 0x83);
    }
    assert Reg(next, 6, 0x8d) by {
      Lands(st, scratch, 0, next, 3, 2, 0x07, 0, 7, 0x1a, 1, 10, 14, 6, 0x8d);
    }
  }

  lemma Land0b(st: State, scratch: Registers, next: State)
    requires Leads(st, scratch, 0, next)
    requires Out(st, 3, 0x1a) && Out(st, 4, 0x15) && Out(st, 5, 0x28) && Out(st, 6, 0x6c) && Out(st, 7, 0x14)
    ensures Reg(next, 10, 0x0a) && Reg(next, 8, 0x94) && Reg(next, 7, 0x36) && Reg(next, 0, 0x0a)
  {
    hide Leads, Reg, Out;
    assert Reg(next, 10, 0x0a) by {
      Lands(st, scratch, 0, next, 4, 3, 0x1a, 1, 10, 0x15, 1, 5, 12, 10, 0x0a);
    }
    assert Reg(next, 8, 0x94) by {
      Lands(st, scratch, 0, next, 5, 4, 0x15, 1, 5, 0x28, 2, 8, 6, 8, 0x94);
    }
    assert Reg(next, 7, 0x36) by {
      Lands(st, scratch, 0, next, 6, 5, 0x28, 2, 8, 0x6c, 6, 12, 9, 7, 0x36);
    }
    assert Reg(next, 0, 0x0a) by {
      Lands(st, scratch, 0, next, 7, 6, 0x6c, 6, 12, 0x14, 1, 4, 11, 0, 0x0a);
    }
  }

  lemma Land0c(st: State, scratch: Registers, next: State)
    requires Leads(st, scratch, 0, next)
    requires Out(st, 7, 0x14) && Out(st, 8, 0x29) && Out(st, 9, 0x67) && Out(st, 10, 0xd5) && Out(st, 11, 0x92)
    ensures Reg(next, 11, 0x14) && Reg(next, 2, 0xb3) && Reg(next, 12, 0xea) && Reg(next, 4, 0xc9)
  {
    hide Leads, Reg, Out;
    assert Reg(next, 11, 0x14) by {
      Lands(st, scratch, 0, next, 8, 7, 0x14, 1, 4, 0x29, 2, 9, 7, 11, 0x14);
    }
    assert Reg(next, 2, 0xb3) by {
      Lands(st, scratch, 0, next, 9, 8, 0x29, 2, 9, 0x67, 6, 7, 15, 2, 0xb3);
    }
    assert Reg(next, 12, 0xea) by {
      Lands(st, scratch, 0, next, 10, 9, 0x67, 6, 7, 0xd5, 13, 5, 0, 12, 0xea);
    }
    assert Reg(next, 4, 0xc9) by {
      Lands(st, scratch, 0, next, 11, 10, 0xd5, 13, 5, 0x92, 9, 2, 3, 4, 0xc9);
    }
  }

  lemma Land0d(st: State, scratch: Registers, next: State)
    requires Leads(st, scratch, 0, next)
    requires Out(st, 11, 0x92) && Out(st, 12, 0x70) && Out(st, 13, 0x05) && Out(st, 14, 0xe4) && Out(st, 15, 0x3f)
    ensures Reg(next, 1, 0x38) && Reg(next, 5, 0x02) && Reg(next, 13, 0xf2) && Reg(next, 14, 0x1f)
  {
    hide Leads, Reg, Out;
    assert Reg(next, 1, 0x38) by {
      Lands(st, scratch, 0, next, 12, 11, 0x92, 9, 2, 0x70, 7, 0, 1, 1, 0x38);
    }
    assert Reg(next, 5, 0x02) by {
      Lands(st, scratch, 0, next, 13, 12, 0x70, 7, 0, 0x05, 0, 5, 10, 5, 0x02);
    }
    assert Reg(next, 13, 0xf2) by {
      Lands(st, scratch, 0, next, 14, 13, 0x05, 0, 5, 0xe4, 14, 4, 8, 13, 0xf2);
    }
    assert Reg(next, 14, 0x1f) by {
      Lands(st, scratch, 0, next, 15, 14, 0xe4, 14, 4, 0x3f, 3, 15, 4, 14, 0x1f);
    }
  }

  lemma Round0(st: State, scratch: Registers, next: State)
    requires Leads(st, scratch, 0, next) && At(st, 0, 0x974217e5, 0x2b, 0xc4)
    requires Reg(st, 0, 0xe3) && Reg(st, 1, 0xed) && Reg(st, 2, 0xf0) && Reg(st, 3, 0x7b)
    requires Reg(st, 4, 0x06) && Reg(st, 5, 0x96) && Reg(st, 6, 0x79) && Reg(st, 7, 0x00)
    requires Reg(st, 8, 0x23) && Reg(st, 9, 0x55) && Reg(st, 10, 0x7b) && Reg(st, 11, 0x42)
    requires Reg(st, 12, 0x6d) && Reg(st, 13, 0x54) && Reg(st, 14, 0xdf) && Reg(st, 15, 0x22)
    ensures At(next, 0, 0xabd9cba1, 0x86, 0x48)
    ensures Reg(next, 0, 0x0a) && Reg(next, 1, 0x38) && Reg(next, 2, 0xb3) && Reg(next, 3, 0xcb)
    ensures Reg(next, 4, 0xc9) && Reg(next, 5, 0x02) && Reg(next, 6, 0x8d) && Reg(next, 7, 0x36)
    ensures Reg(next, 8, 0x94) && Reg(next, 9, 0xe0) && Reg(next, 10, 0x0a) && Reg(next, 11, 0x14)
    ensures Reg(next, 12, 0xea) && Reg(next, 13, 0xf2) && Reg(next, 14, 0x1f) && Reg(next, 15, 0x83)
  {
    hide Leads, At, Reg, Out;
    Mix0(st);
    Ends(st, scratch, 0, next, 0xabd9cba1, 0x86, 0x48);
    Land0a(st, scratch, next);
    Land0b(st, scratch, next);
    Land0c(st, scratch, next);
    Land0d(st, scratch, next);
  }

  // All rounds

  /** From the loaded registers to the mixed ones. */
  lemma Runs(st: State)
    requires At(st, 0, 0x9bc15469, 0x80, 0x80)
    requires Reg(st, 0, 0x9b) && Reg(st, 1, 0xc1) && Reg(st, 2, 0x54) && Reg(st, 3, 0x69)
    requires Reg(st, 4, 0x14) && Reg(st, 5, 0x99) && Reg(st, 6, 0x7f) && Reg(st, 7, 0x6c)
    requires Reg(st, 8, 0xc7) && Reg(st, 9, 0x99) && Reg(st, 10, 0x7f) && Reg(st, 11, 0x6c)
    requires Reg(st, 12, 0xf2) && Reg(st, 13, 0x74) && Reg(st, 14, 0x79) && Reg(st, 15, 0x9a)
    ensures var end := Rounds(st, ZEROS, 8);
            Reg(end, 0, 0x0a) && Reg(end, 1, 0x38) && Reg(end, 2, 0xb3)
            && Reg(end, 13, 0xf2) && Reg(end, 14, 0x1f) && Reg(end, 15, 0x83)
  {
    var s7, s6, s5, s4, s3, s2, s1, s0 := EightRounds(st);
    hide Leads, At, Reg, Rounds;
    Round7(st, ZEROS, s7);
    Round6(s7, s7.reg, s6);
    Round5(s6, s6.reg, s5);
    Round4(s5, s5.reg, s4);
    Round3(s4, s4.reg, s3);
    Round2(s3, s3.reg, s2);
    Round1(s2, s2.reg, s1);
    Round0(s1, s1.reg, s0);
  }
}
