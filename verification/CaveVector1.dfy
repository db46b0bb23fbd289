/** CAVE on the key 14142135623730950488 and the serial number 0xd75a96ec, step by step. */
module CaveVector1 {
  import opened Bytes
  import opened CaveTable
  import opened Cave
  import opened CaveRounds
  import opened CaveSteps
  import opened CaveReckoning

  // Round 7

  lemma Turns7a()
    ensures Turn(0xc442f56b, 0x80, 0x80, 0xc4, 0x42, 0xe2217ab5, 0x80, 0x06, 0xd9)
    ensures Turn(0xe2217ab5, 0x80, 0x06, 0x42, 0xf5, 0x7110bd5a, 0x20, 0x69, 0x3c)
  {
    hide Seeks, Turn;
    TurnsAtOnce(0xc442f56b, 12, 4, 4, 2, 0xf56, 11, 0xc4, 12, 4, 0x42, 4, 2, 0x80, 0x80, 8, 0, 11, 11, 0x80, 0x06, 0,
                6, 9, 7, 0xe2217ab5, 0xd9);
    TurnsAtOnce(0xe2217ab5, 14, 2, 2, 1, 0x7ab, 5, 0x42, 4, 2, 0xf5, 15, 5, 0x80, 0x20, 2, 0, 5, 9, 0x06, 0x69, 6, 9,
                12, 15, 0x7110bd5a, 0x3c);
  }

  lemma Turns7b()
    ensures Turn(0x7110bd5a, 0x20, 0x69, 0xf5, 0x6b, 0xb8885ead, 0xa4, 0x4e, 0x64)
    ensures Turn(0xb8885ead, 0xa4, 0x4e, 0x6b, 0xe9, 0x5c442f56, 0x77, 0x31, 0xb7)
  {
    hide Seeks, Turn;
    TurnsAtOnce(0x7110bd5a, 7, 1, 1, 0, 0xbd5, 10, 0xf5, 15, 5, 0x6b, 6, 11, 0x20, 0xa4, 10, 4, 6, 15, 0x69, 0x4e, 4,
                14, 0, 9, 0xb8885ead, 0x64);
    TurnsAtOnce(0xb8885ead, 11, 8, 8, 8, 0x5ea, 13, 0x6b, 6, 11, 0xe9, 14, 9, 0xa4, 0x77, 7, 7, 8, 14, 0x4e, 0x31, 3,
                1, 5, 6, 0x5c442f56, 0xb7);
  }

  lemma Turns7c()
    ensures Turn(0x5c442f56, 0x77, 0x31, 0xe9, 0xe1, 0xae2217ab, 0x2c, 0xde, 0x10)
    ensures Turn(0xae2217ab, 0x2c, 0xde, 0xe1, 0x71, 0x57110bd5, 0x7b, 0xa1, 0x8d)
  {
    hide Seeks, Turn;
    TurnsAtOnce(0x5c442f56, 5, 12, 4, 4, 0x2f5, 6, 0xe9, 14, 9, 0xe1, 14, 1, 0x77, 0x2c, 2, 12, 2, 1, 0x31, 0xde, 13,
                14, 15, 8, 0xae2217ab, 0x10);
    TurnsAtOnce(0xae2217ab, 10, 14, 2, 2, 0x17a, 11, 0xe1, 14, 1, 0x71, 7, 1, 0x2c, 0x7b, 7, 11, 7, 12, 0xde, 0xa1,
                10, 1, 15, 10, 0x57110bd5, 0x8d);
  }

  lemma Turns7d()
    ensures Turn(0x57110bd5, 0x7b, 0xa1, 0x71, 0x58, 0x2b8885ea, 0xa1, 0x01, 0x72)
    ensures Turn(0x2b8885ea, 0xa1, 0x01, 0x58, 0xc7, 0x95c442f5, 0x14, 0xd1, 0xb7)
  {
    hide Seeks, Turn;
    TurnsAtOnce(0x57110bd5, 5, 7, 1, 1, 0xbd, 5, 0x71, 7, 1, 0x58, 5, 8, 0x7b, 0xa1, 10, 1, 15, 10, 0xa1, 0x01, 0, 1,
                2, 3, 0x2b8885ea, 0x72);
    TurnsAtOnce(0x2b8885ea, 2, 11, 8, 8, 0x85e, 10, 0x58, 5, 8, 0xc7, 12, 7, 0xa1, 0x14, 1, 4, 1, 0, 0x01, 0xd1, 13,
                1, 7, 9, 0x95c442f5, 0xb7);
  }

  lemma Turns7e()
    ensures Turn(0x95c442f5, 0x14, 0xd1, 0xc7, 0xe1, 0xcae2217a, 0x66, 0xd4, 0xfd)
    ensures Turn(0xcae2217a, 0x66, 0xd4, 0xe1, 0x71, 0x657110bd, 0x91, 0xd7, 0x37)
  {
    hide Seeks, Turn;
    TurnsAtOnce(0x95c442f5, 9, 5, 12, 4, 0x42f, 5, 0xc7, 12, 7, 0xe1, 14, 1, 0x14, 0x66, 6, 6, 10, 12, 0xd1, 0xd4, 13,
                4, 1, 11, 0xcae2217a, 0xfd);
    TurnsAtOnce(0xcae2217a, 12, 10, 14, 2, 0x217, 10, 0xe1, 14, 1, 0x71, 7, 1, 0x66, 0x91, 9, 1, 7, 6, 0xd4, 0xd7, 13,
                7, 4, 10, 0x657110bd, 0x37);
  }

  lemma Turns7f()
    ensures Turn(0x657110bd, 0x91, 0xd7, 0x71, 0x58, 0xb2b8885e, 0xa5, 0xd7, 0x18)
    ensures Turn(0xb2b8885e, 0xa5, 0xd7, 0x58, 0xd7, 0x595c442f, 0x8f, 0xb7, 0x1e)
  {
    hide Seeks, Turn;
    TurnsAtOnce(0x657110bd, 6, 5, 7, 1, 0x10b, 13, 0x71, 7, 1, 0x58, 5, 8, 0x91, 0xa5, 10, 5, 0, 0, 0xd7, 0xd7, 13, 7,
                4, 10, 0xb2b8885e, 0x18);
    TurnsAtOnce(0xb2b8885e, 11, 2, 11, 8, 0x885, 14, 0x58, 5, 8, 0xd7, 13, 7, 0xa5, 0x8f, 8, 15, 10, 9, 0xd7, 0xb7,
                11, 7, 12, 5, 0x595c442f, 0x1e);
  }

  lemma Turns7g()
    ensures Turn(0x595c442f, 0x8f, 0xb7, 0xd7, 0x5a, 0x2cae2217, 0x1d, 0x42, 0xe9)
    ensures Turn(0x2cae2217, 0x1d, 0x42, 0x5a, 0x96, 0x9657110b, 0x93, 0x36, 0x51)
  {
    hide Seeks, Turn;
    TurnsAtOnce(0x595c442f, 5, 9, 5, 12, 0x442, 15, 0xd7, 13, 7, 0x5a, 5, 10, 0x8f, 0x1d, 1, 13, 11, 3, 0xb7, 0x42, 4,
                2, 11, 10, 0x2cae2217, 0xe9);
    TurnsAtOnce(0x2cae2217, 2, 12, 10, 14, 0x221, 7, 0x5a, 5, 10, 0x96, 9, 6, 0x1d, 0x93, 9, 3, 1, 7, 0x42, 0x36, 3,
                6, 12, 11, 0x9657110b, 0x51);
  }

  lemma Turns7h()
    ensures Turn(0x9657110b, 0x93, 0x36, 0x96, 0xec, 0xcb2b8885, 0x93, 0xf7, 0xab)
    ensures Turn(0xcb2b8885, 0x93, 0xf7, 0xec, 0xc4, 0x6595c442, 0xba, 0xbe, 0xdc)
  {
    hide Seeks, Turn;
    TurnsAtOnce(0x9657110b, 9, 6, 5, 7, 0x110, 11, 0x96, 9, 6, 0xec, 14, 12, 0x93, 0x93, 9, 3, 1, 7, 0x36, 0xf7, 15,
                7, 4, 9, 0xcb2b8885, 0xab);
    TurnsAtOnce(0xcb2b8885, 12, 11, 2, 11, 0x888, 5, 0xec, 14, 12, 0xc4, 12, 4, 0x93, 0xba, 11, 10, 8, 8, 0xf7, 0xbe,
                11, 14, 1, 3, 0x6595c442, 0xdc);
  }

  lemma Mix7(st: State)
    requires At(st, 0, 0xc442f56b, 0x80, 0x80)
    requires Reg(st, 0, 0xc4) && Reg(st, 1, 0x42) && Reg(st, 2, 0xf5) && Reg(st, 3, 0x6b)
    requires Reg(st, 4, 0xe9) && Reg(st, 5, 0xe1) && Reg(st, 6, 0x71) && Reg(st, 7, 0x58)
    requires Reg(st, 8, 0xc7) && Reg(st, 9, 0xe1) && Reg(st, 10, 0x71) && Reg(st, 11, 0x58)
    requires Reg(st, 12, 0xd7) && Reg(st, 13, 0x5a) && Reg(st, 14, 0x96) && Reg(st, 15, 0xec)
    ensures At(st, 16, 0x6595c442, 0xba, 0xbe)
    ensures Out(st, 0, 0xd9) && Out(st, 1, 0x3c) && Out(st, 2, 0x64) && Out(st, 3, 0xb7)
    ensures Out(st, 4, 0x10) && Out(st, 5, 0x8d) && Out(st, 6, 0x72) && Out(st, 7, 0xb7)
    ensures Out(st, 8, 0xfd) && Out(st, 9, 0x37) && Out(st, 10, 0x18) && Out(st, 11, 0x1e)
    ensures Out(st, 12, 0xe9) && Out(st, 13, 0x51) && Out(st, 14, 0xab) && Out(st, 15, 0xdc)
  {
    hide At, Reg, Out, Turn;
    Turns7a();
    Turns7b();
    Turns7c();
    Turns7d();
    Turns7e();
    Turns7f();
    Turns7g();
    Turns7h();
    Take(st, 0, 1, 0xc442f56b, 0x80, 0x80, 0xc4, 0x42, 0xe2217ab5, 0x80, 0x06, 0xd9);
    Take(st, 1, 2, 0xe2217ab5, 0x80, 0x06, 0x42, 0xf5, 0x7110bd5a, 0x20, 0x69, 0x3c);
    Take(st, 2, 3, 0x7110bd5a, 0x20, 0x69, 0xf5, 0x6b, 0xb8885ead, 0xa4, 0x4e, 0x64);
    Take(st, 3, 4, 0xb8885ead, 0xa4, 0x4e, 0x6b, 0xe9, 0x5c442f56, 0x77, 0x31, 0xb7);
    Take(st, 4, 5, 0x5c442f56, 0x77, 0x31, 0xe9, 0xe1, 0xae2217ab, 0x2c, 0xde, 0x10);
    Take(st, 5, 6, 0xae2217ab, 0x2c, 0xde, 0xe1, 0x71, 0x57110bd5, 0x7b, 0xa1, 0x8d);
    Take(st, 6, 7, 0x57110bd5, 0x7b, 0xa1, 0x71, 0x58, 0x2b8885ea, 0xa1, 0x01, 0x72);
    Take(st, 7, 8, 0x2b8885ea, 0xa1, 0x01, 0x58, 0xc7, 0x95c442f5, 0x14, 0xd1, 0xb7);
    Take(st, 8, 9, 0x95c442f5, 0x14, 0xd1, 0xc7, 0xe1, 0xcae2217a, 0x66, 0xd4, 0xfd);
    Take(st, 9, 10, 0xcae2217a, 0x66, 0xd4, 0xe1, 0x71, 0x657110bd, 0x91, 0xd7, 0x37);
    Take(st, 10, 11, 0x657110bd, 0x91, 0xd7, 0x71, 0x58, 0xb2b8885e, 0xa5, 0xd7, 0x18);
    Take(st, 11, 12, 0xb2b8885e, 0xa5, 0xd7, 0x58, 0xd7, 0x595c442f, 0x8f, 0xb7, 0x1e);
    Take(st, 12, 13, 0x595c442f, 0x8f, 0xb7, 0xd7, 0x5a, 0x2cae2217, 0x1d, 0x42, 0xe9);
    Take(st, 13, 14, 0x2cae2217, 0x1d, 0x42, 0x5a, 0x96, 0x9657110b, 0x93, 0x36, 0x51);
    Take(st, 14, 15, 0x9657110b, 0x93, 0x36, 0x96, 0xec, 0xcb2b8885, 0x93, 0xf7, 0xab);
    Take(st, 15, 0, 0xcb2b8885, 0x93, 0xf7, 0xec, 0xc4, 0x6595c442, 0xba, 0xbe, 0xdc);
  }

  lemma Land7a(st: State, scratch: Registers, next: State)
    requires Leads(st, scratch, 7, next)
    requires Out(st, 0, 0xd9) && Out(st, 1, 0x3c) && Out(st, 2, 0x64) && Out(st, 3, 0xb7) && Out(st, 15, 0xdc)
    ensures Reg(next, 1, 0x6c) && Reg(next, 0, 0x9e) && Reg(next, 4, 0x32) && Reg(next, 6, 0x5b)
  {
    hide Leads, Reg, Out;
    assert Reg(next, 1, 0x6c) by {
      Lands(st, scratch, 7, next, 0, 15, 0xdc, 13, 12, 0xd9, 13, 9, 11, 1, 0x6c);
    }
    assert Reg(next, 0, 0x9e) by {
      Lands(st, scratch, 7, next, 1, 0, 0xd9, 13, 9, 0x3c, 3, 12, 3, 0, 0x9e);
    }
    assert Reg(next, 4, 0x32) by {
      Lands(st, scratch, 7, next, 2, 1, 0x3c, 3, 12, 0x64, 6, 4, 10, 4, 0x32);
    }
    assert Reg(next, 6, 0x5b) by {
      Lands(st, scratch, 7, next, 3, 2, 0x64, 6, 4, 0xb7, 11, 7, 9, 6, 0x5b);
    }
  }

  lemma Land7b(st: State, scratch: Registers, next: State)
    requires Leads(st, scratch, 7, next)
    requires Out(st, 3, 0xb7) && Out(st, 4, 0x10) && Out(st, 5, 0x8d) && Out(st, 6, 0x72) && Out(st, 7, 0xb7)
    ensures Reg(next, 8, 0x88) && Reg(next, 7, 0x46) && Reg(next, 9, 0xb9) && Reg(next, 14, 0x5b)
  {
    hide Leads, Reg, Out;
    assert Reg(next, 8, 0x88) by {
      Lands(st, scratch, 7, next, 4, 3, 0xb7, 11, 7, 0x10, 1, 0, 15, 8, 0x88);
    }
    assert Reg(next, 7, 0x46) by {
      Lands(st, scratch, 7, next, 5, 4, 0x10, 1, 0, 0x8d, 8, 13, 5, 7, 0x46);
    }
    assert Reg(next, 9, 0xb9) by {
      Lands(st, scratch, 7, next, 6, 5, 0x8d, 8, 13, 0x72, 7, 2, 4, 9, 0xb9);
    }
    assert Reg(next, 14, 0x5b) by {
      Lands(st, scratch, 7, next, 7, 6, 0x72, 7, 2, 0xb7, 11, 7, 8, 14, 0x5b);
    }
  }

  lemma Land7c(st: State, scratch: Registers, next: State)
    requires Leads(st, scratch, 7, next)
    requires Out(st, 7, 0xb7) && Out(st, 8, 0xfd) && Out(st, 9, 0x37) && Out(st, 10, 0x18) && Out(st, 11, 0x1e)
    ensures Reg(next, 5, 0xfe) && Reg(next, 15, 0x9b) && Reg(next, 2, 0x8c) && Reg(next, 12, 0x0f)
  {
    hide Leads, Reg, Out;
    assert Reg(next, 5, 0xfe) by {
      Lands(st, scratch, 7, next, 8, 7, 0xb7, 11, 7, 0xfd, 15, 13, 0, 5, 0xfe);
    }
    assert Reg(next, 15, 0x9b) by {
      Lands(st, scratch, 7, next, 9, 8, 0xfd, 15, 13, 0x37, 3, 7, 1, 15, 0x9b);
    }
    assert Reg(next, 2, 0x8c) by {
      Lands(st, scratch, 7, next, 10, 9, 0x37, 3, 7, 0x18, 1, 8, 6, 2, 0x8c);
    }
    assert Reg(next, 12, 0x0f) by {
      Lands(st, scratch, 7, next, 11, 10, 0x18, 1, 8, 0x1e, 1, 14, 7, 12, 0x0f);
    }
  }

  lemma Land7d(st: State, scratch: Registers, next: State)
    requires Leads(st, scratch, 7, next)
    requires Out(st, 11, 0x1e) && Out(st, 12, 0xe9) && Out(st, 13, 0x51) && Out(st, 14, 0xab) && Out(st, 15, 0xdc)
    ensures Reg(next, 3, 0x74) && Reg(next, 11, 0xa8) && Reg(next, 10, 0xd5) && Reg(next, 13, 0xee)
  {
    hide Leads, Reg, Out;
    assert Reg(next, 3, 0x74) by {
      Lands(st, scratch, 7, next, 12, 11, 0x1e, 1, 14, 0xe9, 14, 9, 12, 3, 0x74);
    }
    assert Reg(next, 11, 0xa8) by {
      Lands(st, scratch, 7, next, 13, 12, 0xe9, 14, 9, 0x51, 5, 1, 2, 11, 0xa8);
    }
    assert Reg(next, 10, 0xd5) by {
      Lands(st, scratch, 7, next, 14, 13, 0x51, 5, 1, 0xab, 10, 11, 13, 10, 0xd5);
    }
    assert Reg(next, 13, 0xee) by {
      Lands(st, scratch, 7, next, 15, 14, 0xab, 10, 11, 0xdc, 13, 12, 14, 13, 0xee);
    }
  }

  lemma Round7(st: State, scratch: Registers, next: State)
    requires Leads(st, scratch, 7, next) && At(st, 0, 0xc442f56b, 0x80, 0x80)
    requires Reg(st, 0, 0xc4) && Reg(st, 1, 0x42) && Reg(st, 2, 0xf5) && Reg(st, 3, 0x6b)
    requires Reg(st, 4, 0xe9) && Reg(st, 5, 0xe1) && Reg(st, 6, 0x71) && Reg(st, 7, 0x58)
    requires Reg(st, 8, 0xc7) && Reg(st, 9, 0xe1) && Reg(st, 10, 0x71) && Reg(st, 11, 0x58)
    requires Reg(st, 12, 0xd7) && Reg(st, 13, 0x5a) && Reg(st, 14, 0x96) && Reg(st, 15, 0xec)
    ensures At(next, 0, 0x6595c442, 0xba, 0xbe)
    ensures Reg(next, 0, 0x9e) && Reg(next, 1, 0x6c) && Reg(next, 2, 0x8c) && Reg(next, 3, 0x74)
    ensures Reg(next, 4, 0x32) && Reg(next, 5, 0xfe) && Reg(next, 6, 0x5b) && Reg(next, 7, 0x46)
    ensures Reg(next, 8, 0x88) && Reg(next, 9, 0xb9) && Reg(next, 10, 0xd5) && Reg(next, 11, 0xa8)
    ensures Reg(next, 12, 0x0f) && Reg(next, 13, 0xee) && Reg(next, 14, 0x5b) && Reg(next, 15, 0x9b)
  {
    hide Leads, At, Reg, Out;
    Mix7(st);
    Ends(st, scratch, 7, next, 0x6595c442, 0xba, 0xbe);
    Land7a(st, scratch, next);
    Land7b(st, scratch, next);
    Land7c(st, scratch, next);
    Land7d(st, scratch, next);
  }

  // Round 6

  lemma Turns6a()
    ensures Turn(0x6595c442, 0xba, 0xbe, 0x9e, 0x6c, 0xb2cae221, 0xb5, 0xc9, 0x9d)
    ensures Turn(0xb2cae221, 0xb5, 0xc9, 0x6c, 0x8c, 0x59657110, 0x93, 0x6f, 0xcb)
  {
    hide Seeks, Turn;
    TurnsAtOnce(0x6595c442, 6, 5, 9, 5, 0xc44, 2, 0x9e, 9, 14, 0x6c, 6, 12, 0xba, 0xb5, 11, 5, 7, 1, 0xbe, 0xc9, 12,
                9, 15, 2, 0xb2cae221, 0x9d);
    TurnsAtOnce(0xb2cae221, 11, 2, 12, 10, 0xe22, 1, 0x6c, 6, 12, 0x8c, 8, 12, 0xb5, 0x93, 9, 3, 1, 7, 0xc9, 0x6f, 6,
                15, 4, 14, 0x59657110, 0xcb);
  }

  lemma Turns6b()
    ensures Turn(0x59657110, 0x93, 0x6f, 0x8c, 0x74, 0xacb2b888, 0x68, 0x58, 0xbd)
    ensures Turn(0xacb2b888, 0x68, 0x58, 0x74, 0x32, 0x56595c44, 0x40, 0x1e, 0xe0)
  {
    hide Seeks, Turn;
    TurnsAtOnce(0x59657110, 5, 9, 6, 5, 0x711, 0, 0x8c, 8, 12, 0x74, 7, 4, 0x93, 0x68, 6, 8, 14, 9, 0x6f, 0x58, 5, 8,
                12, 11, 0xacb2b888, 0xbd);
    TurnsAtOnce(0xacb2b888, 10, 12, 11, 2, 0xb88, 8, 0x74, 7, 4, 0x32, 3, 2, 0x68, 0x40, 4, 0, 14, 2, 0x58, 0x1e, 1,
                14, 13, 8, 0x56595c44, 0xe0);
  }

  lemma Turns6c()
    ensures Turn(0x56595c44, 0x40, 0x1e, 0x32, 0xfe, 0x95965711, 0xa4, 0xa7, 0xb1)
    ensures Turn(0x95965711, 0xa4, 0xa7, 0xfe, 0x5b, 0xe56595c4, 0x43, 0xdc, 0x6f)
  {
    hide Seeks, Turn;
    Finds(false, 0x56595c44, 5, 6, 5, 9, 0x5c4, 4, 0x32, 3, 2, 0x40, 0xa4, 10, 4, 6, 15, 0, 15);
    Finds(true, 0x2b2cae22, 2, 11, 2, 12, 0xae2, 2, 0x32, 3, 2, 0x89, 0xa7, 10, 7, 4, 2, 1, 0x40);
    Misses(true, 0x56595c44, 5, 6, 5, 9, 0x5c4, 4, 0x32, 3, 2, 0x1e, 0x89, 8, 9, 3, 0, 0, 0x2b2cae22, 0x2b2cae22,
           0xa7, 0x40);
    Turns(0x56595c44, 0x40, 0x1e, 0x32, 0xfe, 15, 14, 0x56595c44, 0xa4, 15, 0x2b2cae22, 0xa7, 4, 2, 11, 2, 12, 0xae2,
          2, 0x95965711, 0xb1);
    Finds(false, 0xcacb2b88, 12, 10, 12, 11, 0x2b8, 8, 0xfe, 15, 14, 0x0f, 0x43, 4, 3, 4, 4, 1, 4);
    Misses(false, 0x95965711, 9, 5, 9, 6, 0x571, 1, 0xfe, 15, 14, 0xa4, 0x0f, 0, 15, 4, 14, 0, 0xcacb2b88, 0xcacb2b88,
           0x43, 4);
    Finds(true, 0xcacb2b88, 12, 10, 12, 11, 0x2b8, 8, 0xfe, 15, 14, 0xa7, 0xdc, 13, 12, 3, 14, 0, 0x30);
    Turns(0x95965711, 0xa4, 0xa7, 0xfe, 0x5b, 5, 11, 0xcacb2b88, 0x43, 4, 0xcacb2b88, 0xdc, 3, 12, 10, 12, 11, 0x2b8,
          8, 0xe56595c4, 0x6f);
  }

  lemma Turns6d()
    ensures Turn(0xe56595c4, 0x43, 0xdc, 0x5b, 0x46, 0x72b2cae2, 0x01, 0x1a, 0xa5)
    ensures Turn(0x72b2cae2, 0x01, 0x1a, 0x46, 0x88, 0xb9596571, 0x35, 0x0e, 0x0c)
  {
    hide Seeks, Turn;
    TurnsAtOnce(0xe56595c4, 14, 5, 6, 5, 0x95c, 4, 0x5b, 5, 11, 0x46, 4, 6, 0x43, 0x01, 0, 1, 2, 3, 0xdc, 0x1a, 1, 10,
                14, 12, 0x72b2cae2, 0xa5);
    TurnsAtOnce(0x72b2cae2, 7, 2, 11, 2, 0xcae, 2, 0x46, 4, 6, 0x88, 8, 8, 0x01, 0x35, 3, 5, 14, 4, 0x1a, 0x0e, 0, 14,
                8, 13, 0xb9596571, 0x0c);
  }

  lemma Turns6e()
    ensures Turn(0xb9596571, 0x35, 0x0e, 0x88, 0xb9, 0x5cacb2b8, 0x66, 0xdf, 0x15)
    ensures Turn(0x5cacb2b8, 0x66, 0xdf, 0xb9, 0xd5, 0x2e56595c, 0x4b, 0xf4, 0xf0)
  {
    hide Seeks, Turn;
    TurnsAtOnce(0xb9596571, 11, 9, 5, 9, 0x657, 1, 0x88, 8, 8, 0xb9, 11, 9, 0x35, 0x66, 6, 6, 10, 12, 0x0e, 0xdf, 13,
                15, 10, 2, 0x5cacb2b8, 0x15);
    TurnsAtOnce(0x5cacb2b8, 5, 12, 10, 12, 0xb2b, 8, 0xb9, 11, 9, 0xd5, 13, 5, 0x66, 0x4b, 4, 11, 6, 5, 0xdf, 0xf4,
                15, 4, 2, 15, 0x2e56595c, 0xf0);
  }

  lemma Turns6f()
    ensures Turn(0x2e56595c, 0x4b, 0xf4, 0xd5, 0xa8, 0x172b2cae, 0x46, 0x77, 0x25)
    ensures Turn(0x172b2cae, 0x46, 0x77, 0xa8, 0x0f, 0x85cacb2b, 0xa8, 0xb4, 0xfa)
  {
    hide Seeks, Turn;
    TurnsAtOnce(0x2e56595c, 2, 14, 5, 6, 0x595, 12, 0xd5, 13, 5, 0xa8, 10, 8, 0x4b, 0x46, 4, 6, 5, 13, 0xf4, 0x77, 7,
                7, 8, 14, 0x172b2cae, 0x25);
    Finds(false, 0x0b959657, 0, 11, 9, 5, 0x965, 7, 0xa8, 10, 8, 0x05, 0xa8, 10, 8, 2, 5, 1, 5);
    Misses(false, 0x172b2cae, 1, 7, 2, 11, 0x2ca, 14, 0xa8, 10, 8, 0x46, 0x05, 0, 5, 6, 8, 0, 0x0b959657, 0x0b959657,
           0xa8, 5);
    Finds(true, 0x0b959657, 0, 11, 9, 5, 0x965, 7, 0xa8, 10, 8, 0x77, 0xb4, 11, 4, 15, 14, 0, 0xf0);
    Turns(0x172b2cae, 0x46, 0x77, 0xa8, 0x0f, 0, 15, 0x0b959657, 0xa8, 5, 0x0b959657, 0xb4, 15, 0, 11, 9, 5, 0x965, 7,
          0x85cacb2b, 0xfa);
  }

  lemma Turns6g()
    ensures Turn(0x85cacb2b, 0xa8, 0xb4, 0x0f, 0xee, 0xc2e56595, 0x32, 0x79, 0xfd)
    ensures Turn(0xc2e56595, 0x32, 0x79, 0xee, 0x5b, 0xe172b2ca, 0x5e, 0x84, 0xc9)
  {
    hide Seeks, Turn;
    TurnsAtOnce(0x85cacb2b, 8, 5, 12, 10, 0xcb2, 11, 0x0f, 0, 15, 0xee, 14, 14, 0xa8, 0x32, 3, 2, 2, 3, 0xb4, 0x79, 7,
                9, 1, 15, 0xc2e56595, 0xfd);
    TurnsAtOnce(0xc2e56595, 12, 2, 14, 5, 0x659, 5, 0xee, 14, 14, 0x5b, 5, 11, 0x32, 0x5e, 5, 14, 6, 2, 0x79, 0x84, 8,
                4, 9, 7, 0xe172b2ca, 0xc9);
  }

  lemma Turns6h()
    ensures Turn(0xe172b2ca, 0x5e, 0x84, 0x5b, 0x9b, 0x70b95965, 0x18, 0xad, 0x2a)
    ensures Turn(0x70b95965, 0x18, 0xad, 0x9b, 0x9e, 0x385cacb2, 0x03, 0xcf, 0xb8)
  {
    hide Seeks, Turn;
    TurnsAtOnce(0xe172b2ca, 14, 1, 7, 2, 0xb2c, 10, 0x5b, 5, 11, 0x9b, 9, 11, 0x5e, 0x18, 1, 8, 15, 1, 0x84, 0xad, 10,
                13, 11, 6, 0x70b95965, 0x2a);
    TurnsAtOnce(0x70b95965, 7, 0, 11, 9, 0x596, 5, 0x9b, 9, 11, 0x9e, 9, 14, 0x18, 0x03, 0, 3, 14, 6, 0xad, 0xcf, 12,
                15, 2, 9, 0x385cacb2, 0xb8);
  }

  lemma Mix6(st: State)
    requires At(st, 0, 0x6595c442, 0xba, 0xbe)
    requires Reg(st, 0, 0x9e) && Reg(st, 1, 0x6c) && Reg(st, 2, 0x8c) && Reg(st, 3, 0x74)
    requires Reg(st, 4, 0x32) && Reg(st, 5, 0xfe) && Reg(st, 6, 0x5b) && Reg(st, 7, 0x46)
    requires Reg(st, 8, 0x88) && Reg(st, 9, 0xb9) && Reg(st, 10, 0xd5) && Reg(st, 11, 0xa8)
    requires Reg(st, 12, 0x0f) && Reg(st, 13, 0xee) && Reg(st, 14, 0x5b) && Reg(st, 15, 0x9b)
    ensures At(st, 16, 0x385cacb2, 0x03, 0xcf)
    ensures Out(st, 0, 0x9d) && Out(st, 1, 0xcb) && Out(st, 2, 0xbd) && Out(st, 3, 0xe0)
    ensures Out(st, 4, 0xb1) && Out(st, 5, 0x6f) && Out(st, 6, 0xa5) && Out(st, 7, 0x0c)
    ensures Out(st, 8, 0x15) && Out(st, 9, 0xf0) && Out(st, 10, 0x25) && Out(st, 11, 0xfa)
    ensures Out(st, 12, 0xfd) && Out(st, 13, 0xc9) && Out(st, 14, 0x2a) && Out(st, 15, 0xb8)
  {
    hide At, Reg, Out, Turn;
    Turns6a();
    Turns6b();
    Turns6c();
    Turns6d();
    Turns6e();
    Turns6f();
    Turns6g();
    Turns6h();
    Take(st, 0, 1, 0x6595c442, 0xba, 0xbe, 0x9e, 0x6c, 0xb2cae221, 0xb5, 0xc9, 0x9d);
    Take(st, 1, 2, 0xb2cae221, 0xb5, 0xc9, 0x6c, 0x8c, 0x59657110, 0x93, 0x6f, 0xcb);
    Take(st, 2, 3, 0x59657110, 0x93, 0x6f, 0x8c, 0x74, 0xacb2b888, 0x68, 0x58, 0xbd);
    Take(st, 3, 4, 0xacb2b888, 0x68, 0x58, 0x74, 0x32, 0x56595c44, 0x40, 0x1e, 0xe0);
    Take(st, 4, 5, 0x56595c44, 0x40, 0x1e, 0x32, 0xfe, 0x95965711, 0xa4, 0xa7, 0xb1);
    Take(st, 5, 6, 0x95965711, 0xa4, 0xa7, 0xfe, 0x5b, 0xe56595c4, 0x43, 0xdc, 0x6f);
    Take(st, 6, 7, 0xe56595c4, 0x43, 0xdc, 0x5b, 0x46, 0x72b2cae2, 0x01, 0x1a, 0xa5);
    Take(st, 7, 8, 0x72b2cae2, 0x01, 0x1a, 0x46, 0x88, 0xb9596571, 0x35, 0x0e, 0x0c);
    Take(st, 8, 9, 0xb9596571, 0x35, 0x0e, 0x88, 0xb9, 0x5cacb2b8, 0x66, 0xdf, 0x15);
    Take(st, 9, 10, 0x5cacb2b8, 0x66, 0xdf, 0xb9, 0xd5, 0x2e56595c, 0x4b, 0xf4, 0xf0);
    Take(st, 10, 11, 0x2e56595c, 0x4b, 0xf4, 0xd5, 0xa8, 0x172b2cae, 0x46, 0x77, 0x25);
    Take(st, 11, 12, 0x172b2cae, 0x46, 0x77, 0xa8, 0x0f, 0x85cacb2b, 0xa8, 0xb4, 0xfa);
    Take(st, 12, 13, 0x85cacb2b, 0xa8, 0xb4, 0x0f, 0xee, 0xc2e56595, 0x32, 0x79, 0xfd);
    Take(st, 13, 14, 0xc2e56595, 0x32, 0x79, 0xee, 0x5b, 0xe172b2ca, 0x5e, 0x84, 0xc9);
    Take(st, 14, 15, 0xe172b2ca, 0x5e, 0x84, 0x5b, 0x9b, 0x70b95965, 0x18, 0xad, 0x2a);
    Take(st, 15, 0, 0x70b95965, 0x18, 0xad, 0x9b, 0x9e, 0x385cacb2, 0x03, 0xcf, 0xb8);
  }

  lemma Land6a(st: State, scratch: Registers, next: State)
    requires Leads(st, scratch, 6, next)
    requires Out(st, 0, 0x9d) && Out(st, 1, 0xcb) && Out(st, 2, 0xbd) && Out(st, 3, 0xe0) && Out(st, 15, 0xb8)
    ensures Reg(next, 8, 0x4e) && Reg(next, 7, 0xe5) && Reg(next, 0, 0xde) && Reg(next, 1, 0xf0)
  {
    hide Leads, Reg, Out;
    assert Reg(next, 8, 0x4e) by {
      Lands(st, scratch, 6, next, 0, 15, 0xb8, 11, 8, 0x9d, 9, 13, 11, 8, 0x4e);
    }
    assert Reg(next, 7, 0xe5) by {
      Lands(st, scratch, 6, next, 1, 0, 0x9d, 9, 13, 0xcb, 12, 11, 7, 7, 0xe5);
    }
    assert Reg(next, 0, 0xde) by {
      Lands(st, scratch, 6, next, 2, 1, 0xcb, 12, 11, 0xbd, 11, 13, 8, 0, 0xde);
    }
    assert Reg(next, 1, 0xf0) by {
      Lands(st, scratch, 6, next, 3, 2, 0xbd, 11, 13, 0xe0, 14, 0, 13, 1, 0xf0);
    }
  }

  lemma Land6b(st: State, scratch: Registers, next: State)
    requires Leads(st, scratch, 6, next)
    requires Out(st, 3, 0xe0) && Out(st, 4, 0xb1) && Out(st, 5, 0x6f) && Out(st, 6, 0xa5) && Out(st, 7, 0x0c)
    ensures Reg(next, 2, 0x58) && Reg(next, 6, 0xb7) && Reg(next, 12, 0xd2) && Reg(next, 13, 0x86)
  {
    hide Leads, Reg, Out;
    assert Reg(next, 2, 0x58) by {
      Lands(st, scratch, 6, next, 4, 3, 0xe0, 14, 0, 0xb1, 11, 1, 1, 2, 0x58);
    }
    assert Reg(next, 6, 0xb7) by {
      Lands(st, scratch, 6, next, 5, 4, 0xb1, 11, 1, 0x6f, 6, 15, 2, 6, 0xb7);
    }
    assert Reg(next, 12, 0xd2) by {
      Lands(st, scratch, 6, next, 6, 5, 0x6f, 6, 15, 0xa5, 10, 5, 10, 12, 0xd2);
    }
    assert Reg(next, 13, 0x86) by {
      Lands(st, scratch, 6, next, 7, 6, 0xa5, 10, 5, 0x0c, 0, 12, 6, 13, 0x86);
    }
  }

  lemma Land6c(st: State, scratch: Registers, next: State)
    requires Leads(st, scratch, 6, next)
    requires Out(st, 7, 0x0c) && Out(st, 8, 0x15) && Out(st, 9, 0xf0) && Out(st, 10, 0x25) && Out(st, 11, 0xfa)
    ensures Reg(next, 9, 0x0a) && Reg(next, 15, 0xf8) && Reg(next, 3, 0x12) && Reg(next, 4, 0xfd)
  {
    hide Leads, Reg, Out;
    assert Reg(next, 9, 0x0a) by {
      Lands(st, scratch, 6, next, 8, 7, 0x0c, 0, 12, 0x15, 1, 5, 14, 9, 0x0a);
    }
    assert Reg(next, 15, 0xf8) by {
      Lands(st, scratch, 6, next, 9, 8, 0x15, 1, 5, 0xf0, 15, 0, 12, 15, 0xf8);
    }
    assert Reg(next, 3, 0x12) by {
      Lands(st, scratch, 6, next, 10, 9, 0xf0, 15, 0, 0x25, 2, 5, 15, 3, 0x12);
    }
    assert Reg(next, 4, 0xfd) by {
      Lands(st, scratch, 6, next, 11, 10, 0x25, 2, 5, 0xfa, 15, 10, 5, 4, 0xfd);
    }
  }

  lemma Land6d(st: State, scratch: Registers, next: State)
    requires Leads(st, scratch, 6, next)
    requires Out(st, 11, 0xfa) && Out(st, 12, 0xfd) && Out(st, 13, 0xc9) && Out(st, 14, 0x2a) && Out(st, 15, 0xb8)
    ensures Reg(next, 10, 0x7e) && Reg(next, 11, 0xe4) && Reg(next, 5, 0x95) && Reg(next, 14, 0x5c)
  {
    hide Leads, Reg, Out;
    assert Reg(next, 10, 0x7e) by {
      Lands(st, scratch, 6, next, 12, 11, 0xfa, 15, 10, 0xfd, 15, 13, 3, 10, 0x7e);
    }
    assert Reg(next, 11, 0xe4) by {
      Lands(st, scratch, 6, next, 13, 12, 0xfd, 15, 13, 0xc9, 12, 9, 0, 11, 0xe4);
    }
    assert Reg(next, 5, 0x95) by {
      Lands(st, scratch, 6, next, 14, 13, 0xc9, 12, 9, 0x2a, 2, 10, 9, 5, 0x95);
    }
    assert Reg(next, 14, 0x5c) by {
      Lands(st, scratch, 6, next, 15, 14, 0x2a, 2, 10, 0xb8, 11, 8, 4, 14, 0x5c);
    }
  }

  lemma Round6(st: State, scratch: Registers, next: State)
    requires Leads(st, scratch, 6, next) && At(st, 0, 0x6595c442, 0xba, 0xbe)
    requires Reg(st, 0, 0x9e) && Reg(st, 1, 0x6c) && Reg(st, 2, 0x8c) && Reg(st, 3, 0x74)
    requires Reg(st, 4, 0x32) && Reg(st, 5, 0xfe) && Reg(st, 6, 0x5b) && Reg(st, 7, 0x46)
    requires Reg(st, 8, 0x88) && Reg(st, 9, 0xb9) && Reg(st, 10, 0xd5) && Reg(st, 11, 0xa8)
    requires Reg(st, 12, 0x0f) && Reg(st, 13, 0xee) && Reg(st, 14, 0x5b) && Reg(st, 15, 0x9b)
    ensures At(next, 0, 0x385cacb2, 0x03, 0xcf)
    ensures Reg(next, 0, 0xde) && Reg(next, 1, 0xf0) && Reg(next, 2, 0x58) && Reg(next, 3, 0x12)
    ensures Reg(next, 4, 0xfd) && Reg(next, 5, 0x95) && Reg(next, 6, 0xb7) && Reg(next, 7, 0xe5)
    ensures Reg(next, 8, 0x4e) && Reg(next, 9, 0x0a) && Reg(next, 10, 0x7e) && Reg(next, 11, 0xe4)
    ensures Reg(next, 12, 0xd2) && Reg(next, 13, 0x86) && Reg(next, 14, 0x5c) && Reg(next, 15, 0xf8)
  {
    hide Leads, At, Reg, Out;
    Mix6(st);
    Ends(st, scratch, 6, next, 0x385cacb2, 0x03, 0xcf);
    Land6a(st, scratch, next);
    Land6b(st, scratch, next);
    Land6c(st, scratch, next);
    Land6d(st, scratch, next);
  }

  // Round 5

  lemma Turns5a()
    ensures Turn(0x385cacb2, 0x03, 0xcf, 0xde, 0xf0, 0x1c2e5659, 0xe9, 0x51, 0x4a)
    ensures Turn(0x1c2e5659, 0xe9, 0x51, 0xf0, 0x58, 0x8e172b2c, 0xd5, 0x2f, 0x5e)
  {
    hide Seeks, Turn;
    TurnsAtOnce(0x385cacb2, 3, 8, 5, 12, 0xacb, 2, 0xde, 13, 14, 0xf0, 15, 0, 0x03, 0xe9, 14, 9, 10, 10, 0xcf, 0x51,
                5, 1, 11, 13, 0x1c2e5659, 0x4a);
    TurnsAtOnce(0x1c2e5659, 1, 12, 2, 14, 0x565, 9, 0xf0, 15, 0, 0x58, 5, 8, 0xe9, 0xd5, 13, 5, 6, 6, 0x51, 0x2f, 2,
                15, 0, 0, 0x8e172b2c, 0x5e);
  }

  lemma Turns5b()
    ensures Turn(0x8e172b2c, 0xd5, 0x2f, 0x58, 0x12, 0xc70b9596, 0xab, 0x7e, 0xcb)
    ensures Turn(0xc70b9596, 0xab, 0x7e, 0x12, 0xfd, 0x6385cacb, 0x80, 0x97, 0x76)
  {
    hide Seeks, Turn;
    TurnsAtOnce(0x8e172b2c, 8, 14, 1, 7, 0x2b2, 12, 0x58, 5, 8, 0x12, 1, 2, 0xd5, 0xab, 10, 11, 12, 9, 0x2f, 0x7e, 7,
                14, 13, 10, 0xc70b9596, 0xcb);
    TurnsAtOnce(0xc70b9596, 12, 7, 0, 11, 0x959, 6, 0x12, 1, 2, 0xfd, 15, 13, 0xab, 0x80, 8, 0, 11, 11, 0x7e, 0x97, 9,
                7, 8, 4, 0x6385cacb, 0x76);
  }

  lemma Turns5c()
    ensures Turn(0x6385cacb, 0x80, 0x97, 0xfd, 0x95, 0x31c2e565, 0x1e, 0x0f, 0xdd)
    ensures Turn(0x31c2e565, 0x1e, 0x0f, 0x95, 0xb7, 0x98e172b2, 0xc2, 0x66, 0x1f)
  {
    hide Seeks, Turn;
    TurnsAtOnce(0x6385cacb, 6, 3, 8, 5, 0xcac, 11, 0xfd, 15, 13, 0x95, 9, 5, 0x80, 0x1e, 1, 14, 13, 8, 0x97, 0x0f, 0,
                15, 4, 14, 0x31c2e565, 0xdd);
    TurnsAtOnce(0x31c2e565, 3, 1, 12, 2, 0xe56, 5, 0x95, 9, 5, 0xb7, 11, 7, 0x1e, 0xc2, 12, 2, 10, 8, 0x0f, 0x66, 6,
                6, 10, 12, 0x98e172b2, 0x1f);
  }

  lemma Turns5d()
    ensures Turn(0x98e172b2, 0xc2, 0x66, 0xb7, 0xe5, 0x4c70b959, 0xf1, 0xbc, 0xe3)
    ensures Turn(0x4c70b959, 0xf1, 0xbc, 0xe5, 0x4e, 0x26385cac, 0x9a, 0x51, 0xf1)
  {
    hide Seeks, Turn;
    TurnsAtOnce(0x98e172b2, 9, 8, 14, 1, 0x72b, 2, 0xb7, 11, 7, 0xe5, 14, 5, 0xc2, 0xf1, 15, 1, 3, 6, 0x66, 0xbc, 11,
                12, 0, 0, 0x4c70b959, 0xe3);
    TurnsAtOnce(0x4c70b959, 4, 12, 7, 0, 0xb95, 9, 0xe5, 14, 5, 0x4e, 4, 14, 0xf1, 0x9a, 9, 10, 14, 15, 0xbc, 0x51, 5,
                1, 11, 13, 0x26385cac, 0xf1);
  }

  lemma Turns5e()
    ensures Turn(0x26385cac, 0x9a, 0x51, 0x4e, 0x0a, 0x931c2e56, 0x02, 0xc7, 0x85)
    ensures Turn(0x931c2e56, 0x02, 0xc7, 0x0a, 0x7e, 0x498e172b, 0x9b, 0xdd, 0xcb)
  {
    hide Seeks, Turn;
    TurnsAtOnce(0x26385cac, 2, 6, 3, 8, 0x5ca, 12, 0x4e, 4, 14, 0x0a, 0, 10, 0x9a, 0x02, 0, 2, 5, 15, 0x51, 0xc7, 12,
                7, 8, 13, 0x931c2e56, 0x85);
    TurnsAtOnce(0x931c2e56, 9, 3, 1, 12, 0x2e5, 6, 0x0a, 0, 10, 0x7e, 7, 14, 0x02, 0x9b, 9, 11, 6, 5, 0xc7, 0xdd, 13,
                13, 11, 0, 0x498e172b, 0xcb);
  }

  lemma Turns5f()
    ensures Turn(0x498e172b, 0x9b, 0xdd, 0x7e, 0xe4, 0x926385ca, 0xd2, 0x86, 0x87)
    ensures Turn(0x926385ca, 0xd2, 0x86, 0xe4, 0xd2, 0x4931c2e5, 0x48, 0x0d, 0x7c)
  {
    hide Seeks, Turn;
    Finds(false, 0x498e172b, 4, 9, 8, 14, 0x172, 11, 0x7e, 7, 14, 0x9b, 0xd2, 13, 2, 14, 3, 0, 3);
    Finds(true, 0x24c70b95, 2, 4, 12, 7, 0xb9, 5, 0x7e, 7, 14, 0xcd, 0x86, 8, 6, 6, 12, 1, 0x60);
    Misses(true, 0x498e172b, 4, 9, 8, 14, 0x172, 11, 0x7e, 7, 14, 0xdd, 0xcd, 12, 13, 7, 1, 0, 0x24c70b95, 0x24c70b95,
           0x86, 0x60);
    Turns(0x498e172b, 0x9b, 0xdd, 0x7e, 0xe4, 14, 4, 0x498e172b, 0xd2, 3, 0x24c70b95, 0x86, 6, 2, 4, 12, 7, 0xb9, 5,
          0x926385ca, 0x87);
    TurnsAtOnce(0x926385ca, 9, 2, 6, 3, 0x85c, 10, 0xe4, 14, 4, 0xd2, 13, 2, 0xd2, 0x48, 4, 8, 13, 14, 0x86, 0x0d, 0,
                13, 10, 5, 0x4931c2e5, 0x7c);
  }

  lemma Turns5g()
    ensures Turn(0x4931c2e5, 0x48, 0x0d, 0xd2, 0x86, 0x2498e172, 0xe3, 0xf0, 0x7a)
    ensures Turn(0x2498e172, 0xe3, 0xf0, 0x86, 0x5c, 0x4926385c, 0x85, 0xd8, 0x7f)
  {
    hide Seeks, Turn;
    TurnsAtOnce(0x4931c2e5, 4, 9, 3, 1, 0xc2e, 5, 0xd2, 13, 2, 0x86, 8, 6, 0x48, 0xe3, 14, 3, 5, 12, 0x0d, 0xf0, 15,
                0, 15, 5, 0x2498e172, 0x7a);
    Finds(false, 0x2498e172, 2, 4, 9, 8, 0xe17, 2, 0x86, 8, 6, 0xe3, 0x85, 8, 5, 1, 3, 0, 3);
    Finds(true, 0x924c70b9, 9, 2, 4, 12, 0x70b, 9, 0x86, 8, 6, 0x0e, 0xd8, 13, 8, 2, 5, 1, 0x20);
    Misses(true, 0x2498e172, 2, 4, 9, 8, 0xe17, 2, 0x86, 8, 6, 0xf0, 0x0e, 0, 14, 8, 13, 0, 0x924c70b9, 0x924c70b9,
           0xd8, 0x20);
    Turns(0x2498e172, 0xe3, 0xf0, 0x86, 0x5c, 5, 12, 0x2498e172, 0x85, 3, 0x924c70b9, 0xd8, 2, 9, 2, 4, 12, 0x70b, 9,
          0x4926385c, 0x7f);
  }

  lemma Turns5h()
    ensures Turn(0x4926385c, 0x85, 0xd8, 0x5c, 0xf8, 0xa4931c2e, 0x9a, 0x52, 0xf7)
    ensures Turn(0xa4931c2e, 0x9a, 0x52, 0xf8, 0xde, 0x52498e17, 0xf6, 0xbd, 0x6d)
  {
    hide Seeks, Turn;
    TurnsAtOnce(0x4926385c, 4, 9, 2, 6, 0x385, 12, 0x5c, 5, 12, 0xf8, 15, 8, 0x85, 0x9a, 9, 10, 14, 15, 0xd8, 0x52, 5,
                2, 0, 10, 0xa4931c2e, 0xf7);
    TurnsAtOnce(0xa4931c2e, 10, 4, 9, 3, 0x1c2, 14, 0xf8, 15, 8, 0xde, 13, 14, 0x9a, 0xf6, 15, 6, 12, 3, 0x52, 0xbd,
                11, 13, 11, 6, 0x52498e17, 0x6d);
  }

  lemma Mix5(st: State)
    requires At(st, 0, 0x385cacb2, 0x03, 0xcf)
    requires Reg(st, 0, 0xde) && Reg(st, 1, 0xf0) && Reg(st, 2, 0x58) && Reg(st, 3, 0x12)
    requires Reg(st, 4, 0xfd) && Reg(st, 5, 0x95) && Reg(st, 6, 0xb7) && Reg(st, 7, 0xe5)
    requires Reg(st, 8, 0x4e) && Reg(st, 9, 0x0a) && Reg(st, 10, 0x7e) && Reg(st, 11, 0xe4)
    requires Reg(st, 12, 0xd2) && Reg(st, 13, 0x86) && Reg(st, 14, 0x5c) && Reg(st, 15, 0xf8)
    ensures At(st, 16, 0x52498e17, 0xf6, 0xbd)
    ensures Out(st, 0, 0x4a) && Out(st, 1, 0x5e) && Out(st, 2, 0xcb) && Out(st, 3, 0x76)
    ensures Out(st, 4, 0xdd) && Out(st, 5, 0x1f) && Out(st, 6, 0xe3) && Out(st, 7, 0xf1)
    ensures Out(st, 8, 0x85) && Out(st, 9, 0xcb) && Out(st, 10, 0x87) && Out(st, 11, 0x7c)
    ensures Out(st, 12, 0x7a) && Out(st, 13, 0x7f) && Out(st, 14, 0xf7) && Out(st, 15, 0x6d)
  {
    hide At, Reg, Out, Turn;
    Turns5a();
    Turns5b();
    Turns5c();
    Turns5d();
    Turns5e();
    Turns5f();
    Turns5g();
    Turns5h();
    Take(st, 0, 1, 0x385cacb2, 0x03, 0xcf, 0xde, 0xf0, 0x1c2e5659, 0xe9, 0x51, 0x4a);
    Take(st, 1, 2, 0x1c2e5659, 0xe9, 0x51, 0xf0, 0x58, 0x8e172b2c, 0xd5, 0x2f, 0x5e);
    Take(st, 2, 3, 0x8e172b2c, 0xd5, 0x2f, 0x58, 0x12, 0xc70b9596, 0xab, 0x7e, 0xcb);
    Take(st, 3, 4, 0xc70b9596, 0xab, 0x7e, 0x12, 0xfd, 0x6385cacb, 0x80, 0x97, 0x76);
    Take(st, 4, 5, 0x6385cacb, 0x80, 0x97, 0xfd, 0x95, 0x31c2e565, 0x1e, 0x0f, 0xdd);
    Take(st, 5, 6, 0x31c2e565, 0x1e, 0x0f, 0x95, 0xb7, 0x98e172b2, 0xc2, 0x66, 0x1f);
    Take(st, 6, 7, 0x98e172b2, 0xc2, 0x66, 0xb7, 0xe5, 0x4c70b959, 0xf1, 0xbc, 0xe3);
    Take(st, 7, 8, 0x4c70b959, 0xf1, 0xbc, 0xe5, 0x4e, 0x26385cac, 0x9a, 0x51, 0xf1);
    Take(st, 8, 9, 0x26385cac, 0x9a, 0x51, 0x4e, 0x0a, 0x931c2e56, 0x02, 0xc7, 0x85);
    Take(st, 9, 10, 0x931c2e56, 0x02, 0xc7, 0x0a, 0x7e, 0x498e172b, 0x9b, 0xdd, 0xcb);
    Take(st, 10, 11, 0x498e172b, 0x9b, 0xdd, 0x7e, 0xe4, 0x926385ca, 0xd2, 0x86, 0x87);
    Take(st, 11, 12, 0x926385ca, 0xd2, 0x86, 0xe4, 0xd2, 0x4931c2e5, 0x48, 0x0d, 0x7c);
    Take(st, 12, 13, 0x4931c2e5, 0x48, 0x0d, 0xd2, 0x86, 0x2498e172, 0xe3, 0xf0, 0x7a);
    Take(st, 13, 14, 0x2498e172, 0xe3, 0xf0, 0x86, 0x5c, 0x4926385c, 0x85, 0xd8, 0x7f);
    Take(st, 14, 15, 0x4926385c, 0x85, 0xd8, 0x5c, 0xf8, 0xa4931c2e, 0x9a, 0x52, 0xf7);
    Take(st, 15, 0, 0xa4931c2e, 0x9a, 0x52, 0xf8, 0xde, 0x52498e17, 0xf6, 0xbd, 0x6d);
  }

  lemma Land5a(st: State, scratch: Registers, next: State)
    requires Leads(st, scratch, 5, next)
    requires Out(st, 0, 0x4a) && Out(st, 1, 0x5e) && Out(st, 2, 0xcb) && Out(st, 3, 0x76) && Out(st, 15, 0x6d)
    ensures Reg(next, 6, 0xa5) && Reg(next, 13, 0x2f) && Reg(next, 10, 0x65) && Reg(next, 1, 0xbb)
  {
    hide Leads, Reg, Out;
    assert Reg(next, 6, 0xa5) by {
      Lands(st, scratch, 5, next, 0, 15, 0x6d, 6, 13, 0x4a, 4, 10, 8, 6, 0xa5);
    }
    assert Reg(next, 13, 0x2f) by {
      Lands(st, scratch, 5, next, 1, 0, 0x4a, 4, 10, 0x5e, 5, 14, 11, 13, 0x2f);
    }
    assert Reg(next, 10, 0x65) by {
      Lands(st, scratch, 5, next, 2, 1, 0x5e, 5, 14, 0xcb, 12, 11, 0, 10, 0x65);
    }
    assert Reg(next, 1, 0xbb) by {
      Lands(st, scratch, 5, next, 3, 2, 0xcb, 12, 11, 0x76, 7, 6, 15, 1, 0xbb);
    }
  }

  lemma Land5b(st: State, scratch: Registers, next: State)
    requires Leads(st, scratch, 5, next)
    requires Out(st, 3, 0x76) && Out(st, 4, 0xdd) && Out(st, 5, 0x1f) && Out(st, 6, 0xe3) && Out(st, 7, 0xf1)
    ensures Reg(next, 12, 0x6e) && Reg(next, 7, 0x8f) && Reg(next, 9, 0xf1) && Reg(next, 3, 0xf8)
  {
    hide Leads, Reg, Out;
    assert Reg(next, 12, 0x6e) by {
      Lands(st, scratch, 5, next, 4, 3, 0x76, 7, 6, 0xdd, 13, 13, 3, 12, 0x6e);
    }
    assert Reg(next, 7, 0x8f) by {
      Lands(st, scratch, 5, next, 5, 4, 0xdd, 13, 13, 0x1f, 1, 15, 10, 7, 0x8f);
    }
    assert Reg(next, 9, 0xf1) by {
      Lands(st, scratch, 5, next, 6, 5, 0x1f, 1, 15, 0xe3, 14, 3, 2, 9, 0xf1);
    }
    assert Reg(next, 3, 0xf8) by {
      Lands(st, scratch, 5, next, 7, 6, 0xe3, 14, 3, 0xf1, 15, 1, 9, 3, 0xf8);
    }
  }

  lemma Land5c(st: State, scratch: Registers, next: State)
    requires Leads(st, scratch, 5, next)
    requires Out(st, 7, 0xf1) && Out(st, 8, 0x85) && Out(st, 9, 0xcb) && Out(st, 10, 0x87) && Out(st, 11, 0x7c)
    ensures Reg(next, 11, 0xc2) && Reg(next, 5, 0xe5) && Reg(next, 15, 0xc3) && Reg(next, 8, 0xbe)
  {
    hide Leads, Reg, Out;
    assert Reg(next, 11, 0xc2) by {
      Lands(st, scratch, 5, next, 8, 7, 0xf1, 15, 1, 0x85, 8, 5, 12, 11, 0xc2);
    }
    assert Reg(next, 5, 0xe5) by {
      Lands(st, scratch, 5, next, 9, 8, 0x85, 8, 5, 0xcb, 12, 11, 4, 5, 0xe5);
    }
    assert Reg(next, 15, 0xc3) by {
      Lands(st, scratch, 5, next, 10, 9, 0xcb, 12, 11, 0x87, 8, 7, 5, 15, 0xc3);
    }
    assert Reg(next, 8, 0xbe) by {
      Lands(st, scratch, 5, next, 11, 10, 0x87, 8, 7, 0x7c, 7, 12, 14, 8, 0xbe);
    }
  }

  lemma Land5d(st: State, scratch: Registers, next: State)
    requires Leads(st, scratch, 5, next)
    requires Out(st, 11, 0x7c) && Out(st, 12, 0x7a) && Out(st, 13, 0x7f) && Out(st, 14, 0xf7) && Out(st, 15, 0x6d)
    ensures Reg(next, 0, 0x3d) && Reg(next, 4, 0x3f) && Reg(next, 2, 0xfb) && Reg(next, 14, 0xb6)
  {
    hide Leads, Reg, Out;
    assert Reg(next, 0, 0x3d) by {
      Lands(st, scratch, 5, next, 12, 11, 0x7c, 7, 12, 0x7a, 7, 10, 1, 0, 0x3d);
    }
    assert Reg(next, 4, 0x3f) by {
      Lands(st, scratch, 5, next, 13, 12, 0x7a, 7, 10, 0x7f, 7, 15, 7, 4, 0x3f);
    }
    assert Reg(next, 2, 0xfb) by {
      Lands(st, scratch, 5, next, 14, 13, 0x7f, 7, 15, 0xf7, 15, 7, 6, 2, 0xfb);
    }
    assert Reg(next, 14, 0xb6) by {
      Lands(st, scratch, 5, next, 15, 14, 0xf7, 15, 7, 0x6d, 6, 13, 13, 14, 0xb6);
    }
  }

  lemma Round5(st: State, scratch: Registers, next: State)
    requires Leads(st, scratch, 5, next) && At(st, 0, 0x385cacb2, 0x03, 0xcf)
    requires Reg(st, 0, 0xde) && Reg(st, 1, 0xf0) && Reg(st, 2, 0x58) && Reg(st, 3, 0x12)
    requires Reg(st, 4, 0xfd) && Reg(st, 5, 0x95) && Reg(st, 6, 0xb7) && Reg(st, 7, 0xe5)
    requires Reg(st, 8, 0x4e) && Reg(st, 9, 0x0a) && Reg(st, 10, 0x7e) && Reg(st, 11, 0xe4)
    requires Reg(st, 12, 0xd2) && Reg(st, 13, 0x86) && Reg(st, 14, 0x5c) && Reg(st, 15, 0xf8)
    ensures At(next, 0, 0x52498e17, 0xf6, 0xbd)
    ensures Reg(next, 0, 0x3d) && Reg(next, 1, 0xbb) && Reg(next, 2, 0xfb) && Reg(next, 3, 0xf8)
    ensures Reg(next, 4, 0x3f) && Reg(next, 5, 0xe5) && Reg(next, 6, 0xa5) && Reg(next, 7, 0x8f)
    ensures Reg(next, 8, 0xbe) && Reg(next, 9, 0xf1) && Reg(next, 10, 0x65) && Reg(next, 11, 0xc2)
    ensures Reg(next, 12, 0x6e) && Reg(next, 13, 0x2f) && Reg(next, 14, 0xb6) && Reg(next, 15, 0xc3)
  {
    hide Leads, At, Reg, Out;
    Mix5(st);
    Ends(st, scratch, 5, next, 0x52498e17, 0xf6, 0xbd);
    Land5a(st, scratch, next);
    Land5b(st, scratch, next);
    Land5c(st, scratch, next);
    Land5d(st, scratch, next);
  }

  // Round 4

  lemma Turns4a()
    ensures Turn(0x52498e17, 0xf6, 0xbd, 0x3d, 0xbb, 0x2924c70b, 0x65, 0x31, 0xed)
    ensures Turn(0x2924c70b, 0x65, 0x31, 0xbb, 0xfb, 0x14926385, 0xf7, 0xd0, 0xf2)
  {
    hide Seeks, Turn;
    TurnsAtOnce(0x52498e17, 5, 2, 4, 9, 0x8e1, 7, 0x3d, 3, 13, 0xbb, 11, 11, 0xf6, 0x65, 6, 5, 2, 6, 0xbd, 0x31, 3, 1,
                5, 6, 0x2924c70b, 0xed);
    TurnsAtOnce(0x2924c70b, 2, 9, 2, 4, 0xc70, 11, 0xbb, 11, 11, 0xfb, 15, 11, 0x65, 0xf7, 15, 7, 4, 9, 0x31, 0xd0,
                13, 0, 0, 4, 0x14926385, 0xf2);
  }

  lemma Turns4b()
    ensures Turn(0x14926385, 0xf7, 0xd0, 0xfb, 0xf8, 0x0a4931c2, 0xe6, 0x39, 0x8b)
    ensures Turn(0x0a4931c2, 0xe6, 0x39, 0xf8, 0x3f, 0x052498e1, 0xd8, 0xea, 0xfa)
  {
    hide Seeks, Turn;
    TurnsAtOnce(0x14926385, 1, 4, 9, 2, 0x638, 5, 0xfb, 15, 11, 0xf8, 15, 8, 0xf7, 0xe6, 14, 6, 7, 3, 0xd0, 0x39, 3,
                9, 7, 0, 0x0a4931c2, 0x8b);
    TurnsAtOnce(0x0a4931c2, 0, 10, 4, 9, 0x31c, 2, 0xf8, 15, 8, 0x3f, 3, 15, 0xe6, 0xd8, 13, 8, 2, 5, 0x39, 0xea, 14,
                10, 12, 11, 0x052498e1, 0xfa);
  }

  lemma Turns4c()
    ensures Turn(0x052498e1, 0xd8, 0xea, 0x3f, 0xe5, 0x82924c70, 0x12, 0x05, 0x82)
    ensures Turn(0x82924c70, 0x12, 0x05, 0xe5, 0xa5, 0x41492638, 0x79, 0x7c, 0x6a)
  {
    hide Seeks, Turn;
    TurnsAtOnce(0x052498e1, 0, 5, 2, 4, 0x98e, 1, 0x3f, 3, 15, 0xe5, 14, 5, 0xd8, 0x12, 1, 2, 7, 7, 0xea, 0x05, 0, 5,
                6, 8, 0x82924c70, 0x82);
    TurnsAtOnce(0x82924c70, 8, 2, 9, 2, 0x4c7, 0, 0xe5, 14, 5, 0xa5, 10, 5, 0x12, 0x79, 7, 9, 1, 15, 0x05, 0x7c, 7,
                12, 12, 3, 0x41492638, 0x6a);
  }

  lemma Turns4d()
    ensures Turn(0x41492638, 0x79, 0x7c, 0xa5, 0x8f, 0xa0a4931c, 0x5d, 0x68, 0x6b)
    ensures Turn(0xa0a4931c, 0x5d, 0x68, 0x8f, 0xbe, 0xf4149263, 0xeb, 0xeb, 0x50)
  {
    hide Seeks, Turn;
    TurnsAtOnce(0x41492638, 4, 1, 4, 9, 0x263, 8, 0xa5, 10, 5, 0x8f, 8, 15, 0x79, 0x5d, 5, 13, 7, 4, 0x7c, 0x68, 6, 8,
                14, 9, 0xa0a4931c, 0x6b);
    Finds(false, 0xd052498e, 13, 0, 5, 2, 0x498, 14, 0x8f, 8, 15, 0x8c, 0xeb, 14, 11, 14, 14, 1, 14);
    Misses(false, 0xa0a4931c, 10, 0, 10, 4, 0x931, 12, 0x8f, 8, 15, 0x5d, 0x8c, 8, 12, 2, 15, 0, 0xd052498e,
           0xd052498e, 0xeb, 14);
    Finds(true, 0xe82924c7, 14, 8, 2, 9, 0x24c, 7, 0x8f, 8, 15, 0x45, 0xeb, 14, 11, 14, 14, 1, 0xe0);
    Misses(true, 0xd052498e, 13, 0, 5, 2, 0x498, 14, 0x8f, 8, 15, 0x68, 0x45, 4, 5, 8, 3, 0, 0xe82924c7, 0xe82924c7,
           0xeb, 0xe0);
    Turns(0xa0a4931c, 0x5d, 0x68, 0x8f, 0xbe, 11, 14, 0xd052498e, 0xeb, 14, 0xe82924c7, 0xeb, 14, 14, 8, 2, 9, 0x24c,
          7, 0xf4149263, 0x50);
  }

  lemma Turns4e()
    ensures Turn(0xf4149263, 0xeb, 0xeb, 0xbe, 0xf1, 0x7a0a4931, 0x35, 0x95, 0xc5)
    ensures Turn(0x7a0a4931, 0x35, 0x95, 0xf1, 0x65, 0xbd052498, 0xc0, 0x90, 0xfb)
  {
    hide Seeks, Turn;
    TurnsAtOnce(0xf4149263, 15, 4, 1, 4, 0x926, 3, 0xbe, 11, 14, 0xf1, 15, 1, 0xeb, 0x35, 3, 5, 14, 4, 0xeb, 0x95, 9,
                5, 3, 8, 0x7a0a4931, 0xc5);
    TurnsAtOnce(0x7a0a4931, 7, 10, 0, 10, 0x493, 1, 0xf1, 15, 1, 0x65, 6, 5, 0x35, 0xc0, 12, 0, 4, 14, 0x95, 0x90, 9,
                0, 9, 1, 0xbd052498, 0xfb);
  }

  lemma Turns4f()
    ensures Turn(0xbd052498, 0xc0, 0x90, 0x65, 0xc2, 0x5e82924c, 0x98, 0xf0, 0x30)
    ensures Turn(0x5e82924c, 0x98, 0xf0, 0xc2, 0x6e, 0xaf414926, 0x34, 0x30, 0x29)
  {
    hide Seeks, Turn;
    TurnsAtOnce(0xbd052498, 11, 13, 0, 5, 0x249, 8, 0x65, 6, 5, 0xc2, 12, 2, 0xc0, 0x98, 9, 8, 10, 2, 0x90, 0xf0, 15,
                0, 15, 5, 0x5e82924c, 0x30);
    TurnsAtOnce(0x5e82924c, 5, 14, 8, 2, 0x924, 12, 0xc2, 12, 2, 0x6e, 6, 14, 0x98, 0x34, 3, 4, 9, 7, 0xf0, 0x30, 3,
                0, 4, 9, 0xaf414926, 0x29);
  }

  lemma Turns4g()
    ensures Turn(0xaf414926, 0x34, 0x30, 0x6e, 0x2f, 0xd7a0a493, 0xf5, 0x5f, 0xfb)
    ensures Turn(0xd7a0a493, 0xf5, 0x5f, 0x2f, 0xb6, 0x6bd05249, 0xed, 0xee, 0x6e)
  {
    hide Seeks, Turn;
    TurnsAtOnce(0xaf414926, 10, 15, 4, 1, 0x492, 6, 0x6e, 6, 14, 0x2f, 2, 15, 0x34, 0xf5, 15, 5, 9, 4, 0x30, 0x5f, 5,
                15, 13, 14, 0xd7a0a493, 0xfb);
    TurnsAtOnce(0xd7a0a493, 13, 7, 10, 0, 0xa49, 3, 0x2f, 2, 15, 0xb6, 11, 6, 0xf5, 0xed, 14, 13, 1, 8, 0x5f, 0xee,
                14, 14, 13, 0, 0x6bd05249, 0x6e);
  }

  lemma Turns4h()
    ensures Turn(0x6bd05249, 0xed, 0xee, 0xb6, 0xc3, 0x35e82924, 0xca, 0x54, 0xff)
    ensures Turn(0x35e82924, 0xca, 0x54, 0xc3, 0x3d, 0x1af41492, 0xc0, 0x7f, 0xd3)
  {
    hide Seeks, Turn;
    TurnsAtOnce(0x6bd05249, 6, 11, 13, 0, 0x524, 9, 0xb6, 11, 6, 0xc3, 12, 3, 0xed, 0xca, 12, 10, 14, 12, 0xee, 0x54,
                5, 4, 3, 12, 0x35e82924, 0xff);
    TurnsAtOnce(0x35e82924, 3, 5, 14, 8, 0x292, 4, 0xc3, 12, 3, 0x3d, 3, 13, 0xca, 0xc0, 12, 0, 4, 14, 0x54, 0x7f, 7,
                15, 14, 13, 0x1af41492, 0xd3);
  }

  lemma Mix4(st: State)
    requires At(st, 0, 0x52498e17, 0xf6, 0xbd)
    requires Reg(st, 0, 0x3d) && Reg(st, 1, 0xbb) && Reg(st, 2, 0xfb) && Reg(st, 3, 0xf8)
    requires Reg(st, 4, 0x3f) && Reg(st, 5, 0xe5) && Reg(st, 6, 0xa5) && Reg(st, 7, 0x8f)
    requires Reg(st, 8, 0xbe) && Reg(st, 9, 0xf1) && Reg(st, 10, 0x65) && Reg(st, 11, 0xc2)
    requires Reg(st, 12, 0x6e) && Reg(st, 13, 0x2f) && Reg(st, 14, 0xb6) && Reg(st, 15, 0xc3)
    ensures At(st, 16, 0x1af41492, 0xc0, 0x7f)
    ensures Out(st, 0, 0xed) && Out(st, 1, 0xf2) && Out(st, 2, 0x8b) && Out(st, 3, 0xfa)
    ensures Out(st, 4, 0x82) && Out(st, 5, 0x6a) && Out(st, 6, 0x6b) && Out(st, 7, 0x50)
    ensures Out(st, 8, 0xc5) && Out(st, 9, 0xfb) && Out(st, 10, 0x30) && Out(st, 11, 0x29)
    ensures Out(st, 12, 0xfb) && Out(st, 13, 0x6e) && Out(st, 14, 0xff) && Out(st, 15, 0xd3)
  {
    hide At, Reg, Out, Turn;
    Turns4a();
    Turns4b();
    Turns4c();
    Turns4d();
    Turns4e();
    Turns4f();
    Turns4g();
    Turns4h();
    Take(st, 0, 1, 0x52498e17, 0xf6, 0xbd, 0x3d, 0xbb, 0x2924c70b, 0x65, 0x31, 0xed);
    Take(st, 1, 2, 0x2924c70b, 0x65, 0x31, 0xbb, 0xfb, 0x14926385, 0xf7, 0xd0, 0xf2);
    Take(st, 2, 3, 0x14926385, 0xf7, 0xd0, 0xfb, 0xf8, 0x0a4931c2, 0xe6, 0x39, 0x8b);
    Take(st, 3, 4, 0x0a4931c2, 0xe6, 0x39, 0xf8, 0x3f, 0x052498e1, 0xd8, 0xea, 0xfa);
    Take(st, 4, 5, 0x052498e1, 0xd8, 0xea, 0x3f, 0xe5, 0x82924c70, 0x12, 0x05, 0x82);
    Take(st, 5, 6, 0x82924c70, 0x12, 0x05, 0xe5, 0xa5, 0x41492638, 0x79, 0x7c, 0x6a);
    Take(st, 6, 7, 0x41492638, 0x79, 0x7c, 0xa5, 0x8f, 0xa0a4931c, 0x5d, 0x68, 0x6b);
    Take(st, 7, 8, 0xa0a4931c, 0x5d, 0x68, 0x8f, 0xbe, 0xf4149263, 0xeb, 0xeb, 0x50);
    Take(st, 8, 9, 0xf4149263, 0xeb, 0xeb, 0xbe, 0xf1, 0x7a0a4931, 0x35, 0x95, 0xc5);
    Take(st, 9, 10, 0x7a0a4931, 0x35, 0x95, 0xf1, 0x65, 0xbd052498, 0xc0, 0x90, 0xfb);
    Take(st, 10, 11, 0xbd052498, 0xc0, 0x90, 0x65, 0xc2, 0x5e82924c, 0x98, 0xf0, 0x30);
    Take(st, 11, 12, 0x5e82924c, 0x98, 0xf0, 0xc2, 0x6e, 0xaf414926, 0x34, 0x30, 0x29);
    Take(st, 12, 13, 0xaf414926, 0x34, 0x30, 0x6e, 0x2f, 0xd7a0a493, 0xf5, 0x5f, 0xfb);
    Take(st, 13, 14, 0xd7a0a493, 0xf5, 0x5f, 0x2f, 0xb6, 0x6bd05249, 0xed, 0xee, 0x6e);
    Take(st, 14, 15, 0x6bd05249, 0xed, 0xee, 0xb6, 0xc3, 0x35e82924, 0xca, 0x54, 0xff);
    Take(st, 15, 0, 0x35e82924, 0xca, 0x54, 0xc3, 0x3d, 0x1af41492, 0xc0, 0x7f, 0xd3);
  }

  lemma Land4a(st: State, scratch: Registers, next: State)
    requires Leads(st, scratch, 4, next)
    requires Out(st, 0, 0xed) && Out(st, 1, 0xf2) && Out(st, 2, 0x8b) && Out(st, 3, 0xfa) && Out(st, 15, 0xd3)
    ensures Reg(next, 2, 0xf6) && Reg(next, 8, 0xf9) && Reg(next, 10, 0x45) && Reg(next, 4, 0xfd)
  {
    hide Leads, Reg, Out;
    assert Reg(next, 2, 0xf6) by {
      Lands(st, scratch, 4, next, 0, 15, 0xd3, 13, 3, 0xed, 14, 13, 14, 2, 0xf6);
    }
    assert Reg(next, 8, 0xf9) by {
      Lands(st, scratch, 4, next, 1, 0, 0xed, 14, 13, 0xf2, 15, 2, 3, 8, 0xf9);
    }
    assert Reg(next, 10, 0x45) by {
      Lands(st, scratch, 4, next, 2, 1, 0xf2, 15, 2, 0x8b, 8, 11, 11, 10, 0x45);
    }
    assert Reg(next, 4, 0xfd) by {
      Lands(st, scratch, 4, next, 3, 2, 0x8b, 8, 11, 0xfa, 15, 10, 4, 4, 0xfd);
    }
  }

  lemma Land4b(st: State, scratch: Registers, next: State)
    requires Leads(st, scratch, 4, next)
    requires Out(st, 3, 0xfa) && Out(st, 4, 0x82) && Out(st, 5, 0x6a) && Out(st, 6, 0x6b) && Out(st, 7, 0x50)
    ensures Reg(next, 15, 0x41) && Reg(next, 3, 0x35) && Reg(next, 13, 0x35) && Reg(next, 12, 0xa8)
  {
    hide Leads, Reg, Out;
    assert Reg(next, 15, 0x41) by {
      Lands(st, scratch, 4, next, 4, 3, 0xfa, 15, 10, 0x82, 8, 2, 9, 15, 0x41);
    }
    assert Reg(next, 3, 0x35) by {
      Lands(st, scratch, 4, next, 5, 4, 0x82, 8, 2, 0x6a, 6, 10, 8, 3, 0x35);
    }
    assert Reg(next, 13, 0x35) by {
      Lands(st, scratch, 4, next, 6, 5, 0x6a, 6, 10, 0x6b, 6, 11, 5, 13, 0x35);
    }
    assert Reg(next, 12, 0xa8) by {
      Lands(st, scratch, 4, next, 7, 6, 0x6b, 6, 11, 0x50, 5, 0, 1, 12, 0xa8);
    }
  }

  lemma Land4c(st: State, scratch: Registers, next: State)
    requires Leads(st, scratch, 4, next)
    requires Out(st, 7, 0x50) && Out(st, 8, 0xc5) && Out(st, 9, 0xfb) && Out(st, 10, 0x30) && Out(st, 11, 0x29)
    ensures Reg(next, 14, 0x62) && Reg(next, 11, 0xfd) && Reg(next, 7, 0x98) && Reg(next, 5, 0x14)
  {
    hide Leads, Reg, Out;
    assert Reg(next, 14, 0x62) by {
      Lands(st, scratch, 4, next, 8, 7, 0x50, 5, 0, 0xc5, 12, 5, 13, 14, 0x62);
    }
    assert Reg(next, 11, 0xfd) by {
      Lands(st, scratch, 4, next, 9, 8, 0xc5, 12, 5, 0xfb, 15, 11, 10, 11, 0xfd);
    }
    assert Reg(next, 7, 0x98) by {
      Lands(st, scratch, 4, next, 10, 9, 0xfb, 15, 11, 0x30, 3, 0, 12, 7, 0x98);
    }
    assert Reg(next, 5, 0x14) by {
      Lands(st, scratch, 4, next, 11, 10, 0x30, 3, 0, 0x29, 2, 9, 6, 5, 0x14);
    }
  }

  lemma Land4d(st: State, scratch: Registers, next: State)
    requires Leads(st, scratch, 4, next)
    requires Out(st, 11, 0x29) && Out(st, 12, 0xfb) && Out(st, 13, 0x6e) && Out(st, 14, 0xff) && Out(st, 15, 0xd3)
    ensures Reg(next, 1, 0xfd) && Reg(next, 6, 0xb7) && Reg(next, 9, 0x7f) && Reg(next, 0, 0xe9)
  {
    hide Leads, Reg, Out;
    assert Reg(next, 1, 0xfd) by {
      Lands(st, scratch, 4, next, 12, 11, 0x29, 2, 9, 0xfb, 15, 11, 15, 1, 0xfd);
    }
    assert Reg(next, 6, 0xb7) by {
      Lands(st, scratch, 4, next, 13, 12, 0xfb, 15, 11, 0x6e, 6, 14, 7, 6, 0xb7);
    }
    assert Reg(next, 9, 0x7f) by {
      Lands(st, scratch, 4, next, 14, 13, 0x6e, 6, 14, 0xff, 15, 15, 0, 9, 0x7f);
    }
    assert Reg(next, 0, 0xe9) by {
      Lands(st, scratch, 4, next, 15, 14, 0xff, 15, 15, 0xd3, 13, 3, 2, 0, 0xe9);
    }
  }

  lemma Round4(st: State, scratch: Registers, next: State)
    requires Leads(st, scratch, 4, next) && At(st, 0, 0x52498e17, 0xf6, 0xbd)
    requires Reg(st, 0, 0x3d) && Reg(st, 1, 0xbb) && Reg(st, 2, 0xfb) && Reg(st, 3, 0xf8)
    requires Reg(st, 4, 0x3f) && Reg(st, 5, 0xe5) && Reg(st, 6, 0xa5) && Reg(st, 7, 0x8f)
    requires Reg(st, 8, 0xbe) && Reg(st, 9, 0xf1) && Reg(st, 10, 0x65) && Reg(st, 11, 0xc2)
    requires Reg(st, 12, 0x6e) && Reg(st, 13, 0x2f) && Reg(st, 14, 0xb6) && Reg(st, 15, 0xc3)
    ensures At(next, 0, 0x1af41492, 0xc0, 0x7f)
    ensures Reg(next, 0, 0xe9) && Reg(next, 1, 0xfd) && Reg(next, 2, 0xf6) && Reg(next, 3, 0x35)
    ensures Reg(next, 4, 0xfd) && Reg(next, 5, 0x14) && Reg(next, 6, 0xb7) && Reg(next, 7, 0x98)
    ensures Reg(next, 8, 0xf9) && Reg(next, 9, 0x7f) && Reg(next, 10, 0x45) && Reg(next, 11, 0xfd)
    ensures Reg(next, 12, 0xa8) && Reg(next, 13, 0x35) && Reg(next, 14, 0x62) && Reg(next, 15, 0x41)
  {
    hide Leads, At, Reg, Out;
    Mix4(st);
    Ends(st, scratch, 4, next, 0x1af41492, 0xc0, 0x7f);
    Land4a(st, scratch, next);
    Land4b(st, scratch, next);
    Land4c(st, scratch, next);
    Land4d(st, scratch, next);
  }

  // Round 3

  lemma Turns3a()
    ensures Turn(0x1af41492, 0xc0, 0x7f, 0xe9, 0xfd, 0x06bd0524, 0x97, 0x12, 0x89)
    ensures Turn(0x06bd0524, 0x97, 0x12, 0xfd, 0xf6, 0x835e8292, 0x92, 0x52, 0xf6)
  {
    hide Seeks, Turn;
    Finds(false, 0x0d7a0a49, 0, 13, 7, 10, 0xa4, 9, 0xe9, 14, 9, 0xb3, 0x97, 9, 7, 8, 4, 1, 4);
    Misses(false, 0x1af41492, 1, 10, 15, 4, 0x149, 2, 0xe9, 14, 9, 0xc0, 0xb3, 11, 3, 13, 9, 0, 0x0d7a0a49,
           0x0d7a0a49, 0x97, 4);
    Finds(true, 0x0d7a0a49, 0, 13, 7, 10, 0xa4, 9, 0xe9, 14, 9, 0x7f, 0x12, 1, 2, 7, 7, 0, 0x70);
    Turns(0x1af41492, 0xc0, 0x7f, 0xe9, 0xfd, 15, 13, 0x0d7a0a49, 0x97, 4, 0x0d7a0a49, 0x12, 7, 0, 13, 7, 10, 0xa4, 9,
          0x06bd0524, 0x89);
    TurnsAtOnce(0x06bd0524, 0, 6, 11, 13, 0x52, 4, 0xfd, 15, 13, 0xf6, 15, 6, 0x97, 0x92, 9, 2, 15, 0, 0x12, 0x52, 5,
                2, 0, 10, 0x835e8292, 0xf6);
  }

  lemma Turns3b()
    ensures Turn(0x835e8292, 0x92, 0x52, 0xf6, 0x35, 0x41af4149, 0x07, 0xfa, 0x65)
    ensures Turn(0x41af4149, 0x07, 0xfa, 0x35, 0xfd, 0xa0d7a0a4, 0x7b, 0x94, 0xb1)
  {
    hide Seeks, Turn;
    TurnsAtOnce(0x835e8292, 8, 3, 5, 14, 0x829, 2, 0xf6, 15, 6, 0x35, 3, 5, 0x92, 0x07, 0, 7, 11, 0, 0x52, 0xfa, 15,
                10, 5, 8, 0x41af4149, 0x65);
    TurnsAtOnce(0x41af4149, 4, 1, 10, 15, 0x414, 9, 0x35, 3, 5, 0xfd, 15, 13, 0x07, 0x7b, 7, 11, 7, 12, 0xfa, 0x94, 9,
                4, 4, 3, 0xa0d7a0a4, 0xb1);
  }

  lemma Turns3c()
    ensures Turn(0xa0d7a0a4, 0x7b, 0x94, 0xfd, 0x14, 0x506bd052, 0xd8, 0xbe, 0x01)
    ensures Turn(0x506bd052, 0xd8, 0xbe, 0x14, 0xb7, 0x2835e829, 0x1c, 0x3d, 0x6e)
  {
    hide Seeks, Turn;
    TurnsAtOnce(0xa0d7a0a4, 10, 0, 13, 7, 0xa0a, 4, 0xfd, 15, 13, 0x14, 1, 4, 0x7b, 0xd8, 13, 8, 2, 5, 0x94, 0xbe, 11,
                14, 1, 3, 0x506bd052, 0x01);
    TurnsAtOnce(0x506bd052, 5, 0, 6, 11, 0xd05, 2, 0x14, 1, 4, 0xb7, 11, 7, 0xd8, 0x1c, 1, 12, 12, 9, 0xbe, 0x3d, 3,
                13, 13, 1, 0x2835e829, 0x6e);
  }

  lemma Turns3d()
    ensures Turn(0x2835e829, 0x1c, 0x3d, 0xb7, 0x98, 0x941af414, 0xbb, 0xbf, 0x75)
    ensures Turn(0x941af414, 0xbb, 0xbf, 0x98, 0xf9, 0xca0d7a0a, 0xc7, 0x41, 0xc4)
  {
    hide Seeks, Turn;
    TurnsAtOnce(0x2835e829, 2, 8, 3, 5, 0xe82, 9, 0xb7, 11, 7, 0x98, 9, 8, 0x1c, 0xbb, 11, 11, 2, 13, 0x3d, 0xbf, 11,
                15, 14, 12, 0x941af414, 0x75);
    TurnsAtOnce(0x941af414, 9, 4, 1, 10, 0xf41, 4, 0x98, 9, 8, 0xf9, 15, 9, 0xbb, 0xc7, 12, 7, 8, 13, 0xbf, 0x41, 4,
                1, 3, 8, 0xca0d7a0a, 0xc4);
  }

  lemma Turns3e()
    ensures Turn(0xca0d7a0a, 0xc7, 0x41, 0xf9, 0x7f, 0xe506bd05, 0xfa, 0x35, 0x97)
    ensures Turn(0xe506bd05, 0xfa, 0x35, 0x7f, 0x45, 0x72835e82, 0x94, 0xae, 0x76)
  {
    hide Seeks, Turn;
    TurnsAtOnce(0xca0d7a0a, 12, 10, 0, 13, 0x7a0, 10, 0xf9, 15, 9, 0x7f, 7, 15, 0xc7, 0xfa, 15, 10, 5, 8, 0x41, 0x35,
                3, 5, 14, 4, 0xe506bd05, 0x97);
    TurnsAtOnce(0xe506bd05, 14, 5, 0, 6, 0xbd0, 5, 0x7f, 7, 15, 0x45, 4, 5, 0xfa, 0x94, 9, 4, 4, 3, 0x35, 0xae, 10,
                14, 3, 3, 0x72835e82, 0x76);
  }

  lemma Turns3f()
    ensures Turn(0x72835e82, 0x94, 0xae, 0x45, 0xfd, 0xb941af41, 0xcb, 0x74, 0x09)
    ensures Turn(0xb941af41, 0xcb, 0x74, 0xfd, 0xa8, 0x5ca0d7a0, 0x0f, 0x30, 0xe6)
  {
    hide Seeks, Turn;
    TurnsAtOnce(0x72835e82, 7, 2, 8, 3, 0x5e8, 2, 0x45, 4, 5, 0xfd, 15, 13, 0x94, 0xcb, 12, 11, 0, 4, 0xae, 0x74, 7,
                4, 15, 8, 0xb941af41, 0x09);
    TurnsAtOnce(0xb941af41, 11, 9, 4, 1, 0xaf4, 1, 0xfd, 15, 13, 0xa8, 10, 8, 0xcb, 0x0f, 0, 15, 4, 14, 0x74, 0x30, 3,
                0, 4, 9, 0x5ca0d7a0, 0xe6);
  }

  lemma Turns3g()
    ensures Turn(0x5ca0d7a0, 0x0f, 0x30, 0xa8, 0x35, 0x2e506bd0, 0x03, 0x38, 0xc3)
    ensures Turn(0x2e506bd0, 0x03, 0x38, 0x35, 0x62, 0x972835e8, 0x1e, 0x9d, 0xaa)
  {
    hide Seeks, Turn;
    TurnsAtOnce(0x5ca0d7a0, 5, 12, 10, 0, 0xd7a, 0, 0xa8, 10, 8, 0x35, 3, 5, 0x0f, 0x03, 0, 3, 14, 6, 0x30, 0x38, 3,
                8, 15, 2, 0x2e506bd0, 0xc3);
    TurnsAtOnce(0x2e506bd0, 2, 14, 5, 0, 0x6bd, 0, 0x35, 3, 5, 0x62, 6, 2, 0x03, 0x1e, 1, 14, 13, 8, 0x38, 0x9d, 9,
                13, 12, 10, 0x972835e8, 0xaa);
  }

  lemma Turns3h()
    ensures Turn(0x972835e8, 0x1e, 0x9d, 0x62, 0x41, 0x4b941af4, 0x13, 0xe7, 0x4c)
    ensures Turn(0x4b941af4, 0x13, 0xe7, 0x41, 0xe9, 0xa5ca0d7a, 0x1d, 0xbc, 0xea)
  {
    hide Seeks, Turn;
    TurnsAtOnce(0x972835e8, 9, 7, 2, 8, 0x35e, 8, 0x62, 6, 2, 0x41, 4, 1, 0x1e, 0x13, 1, 3, 8, 13, 0x9d, 0xe7, 14, 7,
                0, 5, 0x4b941af4, 0x4c);
    TurnsAtOnce(0x4b941af4, 4, 11, 9, 4, 0x1af, 4, 0x41, 4, 1, 0xe9, 14, 9, 0x13, 0x1d, 1, 13, 11, 3, 0xe7, 0xbc, 11,
                12, 0, 0, 0xa5ca0d7a, 0xea);
  }

  lemma Mix3(st: State)
    requires At(st, 0, 0x1af41492, 0xc0, 0x7f)
    requires Reg(st, 0, 0xe9) && Reg(st, 1, 0xfd) && Reg(st, 2, 0xf6) && Reg(st, 3, 0x35)
    requires Reg(st, 4, 0xfd) && Reg(st, 5, 0x14) && Reg(st, 6, 0xb7) && Reg(st, 7, 0x98)
    requires Reg(st, 8, 0xf9) && Reg(st, 9, 0x7f) && Reg(st, 10, 0x45) && Reg(st, 11, 0xfd)
    requires Reg(st, 12, 0xa8) && Reg(st, 13, 0x35) && Reg(st, 14, 0x62) && Reg(st, 15, 0x41)
    ensures At(st, 16, 0xa5ca0d7a, 0x1d, 0xbc)
    ensures Out(st, 0, 0x89) && Out(st, 1, 0xf6) && Out(st, 2, 0x65) && Out(st, 3, 0xb1)
    ensures Out(st, 4, 0x01) && Out(st, 5, 0x6e) && Out(st, 6, 0x75) && Out(st, 7, 0xc4)
    ensures Out(st, 8, 0x97) && Out(st, 9, 0x76) && Out(st, 10, 0x09) && Out(st, 11, 0xe6)
    ensures Out(st, 12, 0xc3) && Out(st, 13, 0xaa) && Out(st, 14, 0x4c) && Out(st, 15, 0xea)
  {
    hide At, Reg, Out, Turn;
    Turns3a();
    Turns3b();
    Turns3c();
    Turns3d();
    Turns3e();
    Turns3f();
    Turns3g();
    Turns3h();
    Take(st, 0, 1, 0x1af41492, 0xc0, 0x7f, 0xe9, 0xfd, 0x06bd0524, 0x97, 0x12, 0x89);
    Take(st, 1, 2, 0x06bd0524, 0x97, 0x12, 0xfd, 0xf6, 0x835e8292, 0x92, 0x52, 0xf6);
    Take(st, 2, 3, 0x835e8292, 0x92, 0x52, 0xf6, 0x35, 0x41af4149, 0x07, 0xfa, 0x65);
    Take(st, 3, 4, 0x41af4149, 0x07, 0xfa, 0x35, 0xfd, 0xa0d7a0a4, 0x7b, 0x94, 0xb1);
    Take(st, 4, 5, 0xa0d7a0a4, 0x7b, 0x94, 0xfd, 0x14, 0x506bd052, 0xd8, 0xbe, 0x01);
    Take(st, 5, 6, 0x506bd052, 0xd8, 0xbe, 0x14, 0xb7, 0x2835e829, 0x1c, 0x3d, 0x6e);
    Take(st, 6, 7, 0x2835e829, 0x1c, 0x3d, 0xb7, 0x98, 0x941af414, 0xbb, 0xbf, 0x75);
    Take(st, 7, 8, 0x941af414, 0xbb, 0xbf, 0x98, 0xf9, 0xca0d7a0a, 0xc7, 0x41, 0xc4);
    Take(st, 8, 9, 0xca0d7a0a, 0xc7, 0x41, 0xf9, 0x7f, 0xe506bd05, 0xfa, 0x35, 0x97);
    Take(st, 9, 10, 0xe506bd05, 0xfa, 0x35, 0x7f, 0x45, 0x72835e82, 0x94, 0xae, 0x76);
    Take(st, 10, 11, 0x72835e82, 0x94, 0xae, 0x45, 0xfd, 0xb941af41, 0xcb, 0x74, 0x09);
    Take(st, 11, 12, 0xb941af41, 0xcb, 0x74, 0xfd, 0xa8, 0x5ca0d7a0, 0x0f, 0x30, 0xe6);
    Take(st, 12, 13, 0x5ca0d7a0, 0x0f, 0x30, 0xa8, 0x35, 0x2e506bd0, 0x03, 0x38, 0xc3);
    Take(st, 13, 14, 0x2e506bd0, 0x03, 0x38, 0x35, 0x62, 0x972835e8, 0x1e, 0x9d, 0xaa);
    Take(st, 14, 15, 0x972835e8, 0x1e, 0x9d, 0x62, 0x41, 0x4b941af4, 0x13, 0xe7, 0x4c);
    Take(st, 15, 0, 0x4b941af4, 0x13, 0xe7, 0x41, 0xe9, 0xa5ca0d7a, 0x1d, 0xbc, 0xea);
  }

  lemma Land3a(st: State, scratch: Registers, next: State)
    requires Leads(st, scratch, 3, next)
    requires Out(st, 0, 0x89) && Out(st, 1, 0xf6) && Out(st, 2, 0x65) && Out(st, 3, 0xb1) && Out(st, 15, 0xea)
    ensures Reg(next, 9, 0x44) && Reg(next, 6, 0xfb) && Reg(next, 3, 0x32) && Reg(next, 5, 0xd8)
  {
    hide Leads, Reg, Out;
    assert Reg(next, 9, 0x44) by {
      Lands(st, scratch, 3, next, 0, 15, 0xea, 14, 10, 0x89, 8, 9, 4, 9, 0x44);
    }
    assert Reg(next, 6, 0xfb) by {
      Lands(st, scratch, 3, next, 1, 0, 0x89, 8, 9, 0xf6, 15, 6, 5, 6, 0xfb);
    }
    assert Reg(next, 3, 0x32) by {
      Lands(st, scratch, 3, next, 2, 1, 0xf6, 15, 6, 0x65, 6, 5, 2, 3, 0x32);
    }
    assert Reg(next, 5, 0xd8) by {
      Lands(st, scratch, 3, next, 3, 2, 0x65, 6, 5, 0xb1, 11, 1, 1, 5, 0xd8);
    }
  }

  lemma Land3b(st: State, scratch: Registers, next: State)
    requires Leads(st, scratch, 3, next)
    requires Out(st, 3, 0xb1) && Out(st, 4, 0x01) && Out(st, 5, 0x6e) && Out(st, 6, 0x75) && Out(st, 7, 0xc4)
    ensures Reg(next, 7, 0x80) && Reg(next, 4, 0xb7) && Reg(next, 11, 0x3a) && Reg(next, 15, 0xe2)
  {
    hide Leads, Reg, Out;
    assert Reg(next, 7, 0x80) by {
      Lands(st, scratch, 3, next, 4, 3, 0xb1, 11, 1, 0x01, 0, 1, 9, 7, 0x80);
    }
    assert Reg(next, 4, 0xb7) by {
      Lands(st, scratch, 3, next, 5, 4, 0x01, 0, 1, 0x6e, 6, 14, 14, 4, 0xb7);
    }
    assert Reg(next, 11, 0x3a) by {
      Lands(st, scratch, 3, next, 6, 5, 0x6e, 6, 14, 0x75, 7, 5, 12, 11, 0x3a);
    }
    assert Reg(next, 15, 0xe2) by {
      Lands(st, scratch, 3, next, 7, 6, 0x75, 7, 5, 0xc4, 12, 4, 6, 15, 0xe2);
    }
  }

  lemma Land3c(st: State, scratch: Registers, next: State)
    requires Leads(st, scratch, 3, next)
    requires Out(st, 7, 0xc4) && Out(st, 8, 0x97) && Out(st, 9, 0x76) && Out(st, 10, 0x09) && Out(st, 11, 0xe6)
    ensures Reg(next, 2, 0x4b) && Reg(next, 0, 0xbb) && Reg(next, 12, 0x04) && Reg(next, 8, 0xf3)
  {
    hide Leads, Reg, Out;
    assert Reg(next, 2, 0x4b) by {
      Lands(st, scratch, 3, next, 8, 7, 0xc4, 12, 4, 0x97, 9, 7, 15, 2, 0x4b);
    }
    assert Reg(next, 0, 0xbb) by {
      Lands(st, scratch, 3, next, 9, 8, 0x97, 9, 7, 0x76, 7, 6, 7, 0, 0xbb);
    }
    assert Reg(next, 12, 0x04) by {
      Lands(st, scratch, 3, next, 10, 9, 0x76, 7, 6, 0x09, 0, 9, 3, 12, 0x04);
    }
    assert Reg(next, 8, 0xf3) by {
      Lands(st, scratch, 3, next, 11, 10, 0x09, 0, 9, 0xe6, 14, 6, 8, 8, 0xf3);
    }
  }

  lemma Land3d(st: State, scratch: Registers, next: State)
    requires Leads(st, scratch, 3, next)
    requires Out(st, 11, 0xe6) && Out(st, 12, 0xc3) && Out(st, 13, 0xaa) && Out(st, 14, 0x4c) && Out(st, 15, 0xea)
    ensures Reg(next, 10, 0x61) && Reg(next, 1, 0xd5) && Reg(next, 13, 0x26) && Reg(next, 14, 0x75)
  {
    hide Leads, Reg, Out;
    assert Reg(next, 10, 0x61) by {
      Lands(st, scratch, 3, next, 12, 11, 0xe6, 14, 6, 0xc3, 12, 3, 11, 10, 0x61);
    }
    assert Reg(next, 1, 0xd5) by {
      Lands(st, scratch, 3, next, 13, 12, 0xc3, 12, 3, 0xaa, 10, 10, 13, 1, 0xd5);
    }
    assert Reg(next, 13, 0x26) by {
      Lands(st, scratch, 3, next, 14, 13, 0xaa, 10, 10, 0x4c, 4, 12, 0, 13, 0x26);
    }
    assert Reg(next, 14, 0x75) by {
      Lands(st, scratch, 3, next, 15, 14, 0x4c, 4, 12, 0xea, 14, 10, 10, 14, 0x75);
    }
  }

  lemma Round3(st: State, scratch: Registers, next: State)
    requires Leads(st, scratch, 3, next) && At(st, 0, 0x1af41492, 0xc0, 0x7f)
    requires Reg(st, 0, 0xe9) && Reg(st, 1, 0xfd) && Reg(st, 2, 0xf6) && Reg(st, 3, 0x35)
    requires Reg(st, 4, 0xfd) && Reg(st, 5, 0x14) && Reg(st, 6, 0xb7) && Reg(st, 7, 0x98)
    requires Reg(st, 8, 0xf9) && Reg(st, 9, 0x7f) && Reg(st, 10, 0x45) && Reg(st, 11, 0xfd)
    requires Reg(st, 12, 0xa8) && Reg(st, 13, 0x35) && Reg(st, 14, 0x62) && Reg(st, 15, 0x41)
    ensures At(next, 0, 0xa5ca0d7a, 0x1d, 0xbc)
    ensures Reg(next, 0, 0xbb) && Reg(next, 1, 0xd5) && Reg(next, 2, 0x4b) && Reg(next, 3, 0x32)
    ensures Reg(next, 4, 0xb7) && Reg(next, 5, 0xd8) && Reg(next, 6, 0xfb) && Reg(next, 7, 0x80)
    ensures Reg(next, 8, 0xf3) && Reg(next, 9, 0x44) && Reg(next, 10, 0x61) && Reg(next, 11, 0x3a)
    ensures Reg(next, 12, 0x04) && Reg(next, 13, 0x26) && Reg(next, 14, 0x75) && Reg(next, 15, 0xe2)
  {
    hide Leads, At, Reg, Out;
    Mix3(st);
    Ends(st, scratch, 3, next, 0xa5ca0d7a, 0x1d, 0xbc);
    Land3a(st, scratch, next);
    Land3b(st, scratch, next);
    Land3c(st, scratch, next);
    Land3d(st, scratch, next);
  }

  // Round 2

  lemma Turns2a()
    ensures Turn(0xa5ca0d7a, 0x1d, 0xbc, 0xbb, 0xd5, 0xa972835e, 0x3b, 0x8b, 0x2d)
    ensures Turn(0xa972835e, 0x3b, 0x8b, 0xd5, 0x4b, 0xea5ca0d7, 0xb8, 0xf7, 0x0c)
  {
    hide Seeks, Turn;
    Finds(false, 0xa5ca0d7a, 10, 5, 12, 10, 0xd7, 10, 0xbb, 11, 11, 0x1d, 0x3b, 3, 11, 8, 8, 0, 8);
    Finds(true, 0x52e506bd, 5, 2, 14, 5, 0x6b, 13, 0xbb, 11, 11, 0x2d, 0x8b, 8, 11, 15, 2, 1, 0xf0);
    Misses(true, 0xa5ca0d7a, 10, 5, 12, 10, 0xd7, 10, 0xbb, 11, 11, 0xbc, 0x2d, 2, 13, 11, 12, 0, 0x52e506bd,
           0x52e506bd, 0x8b, 0xf0);
    Turns(0xa5ca0d7a, 0x1d, 0xbc, 0xbb, 0xd5, 13, 5, 0xa5ca0d7a, 0x3b, 8, 0x52e506bd, 0x8b, 15, 5, 2, 14, 5, 0x6b, 13,
          0xa972835e, 0x2d);
    Finds(false, 0xd4b941af, 13, 4, 11, 9, 0x41a, 15, 0xd5, 13, 5, 0xb7, 0xb8, 11, 8, 3, 7, 1, 7);
    Misses(false, 0xa972835e, 10, 9, 7, 2, 0x835, 14, 0xd5, 13, 5, 0x3b, 0xb7, 11, 7, 12, 5, 0, 0xd4b941af,
           0xd4b941af, 0xb8, 7);
    Finds(true, 0xd4b941af, 13, 4, 11, 9, 0x41a, 15, 0xd5, 13, 5, 0x8b, 0xf7, 15, 7, 4, 9, 0, 0x40);
    Turns(0xa972835e, 0x3b, 0x8b, 0xd5, 0x4b, 4, 11, 0xd4b941af, 0xb8, 7, 0xd4b941af, 0xf7, 4, 13, 4, 11, 9, 0x41a,
          15, 0xea5ca0d7, 0x0c);
  }

  lemma Turns2b()
    ensures Turn(0xea5ca0d7, 0xb8, 0xf7, 0x4b, 0x32, 0x752e506b, 0x59, 0x0e, 0xb7)
    ensures Turn(0x752e506b, 0x59, 0x0e, 0x32, 0xb7, 0x3a972835, 0xa0, 0x2a, 0xc0)
  {
    hide Seeks, Turn;
    TurnsAtOnce(0xea5ca0d7, 14, 10, 5, 12, 0xa0d, 7, 0x4b, 4, 11, 0x32, 3, 2, 0xb8, 0x59, 5, 9, 4, 5, 0xf7, 0x0e, 0,
                14, 8, 13, 0x752e506b, 0xb7);
    TurnsAtOnce(0x752e506b, 7, 5, 2, 14, 0x506, 11, 0x32, 3, 2, 0xb7, 11, 7, 0x59, 0xa0, 10, 0, 14, 7, 0x0e, 0x2a, 2,
                10, 7, 13, 0x3a972835, 0xc0);
  }

  lemma Turns2c()
    ensures Turn(0x3a972835, 0xa0, 0x2a, 0xb7, 0xd8, 0x1d4b941a, 0x2d, 0x4a, 0x14)
    ensures Turn(0x1d4b941a, 0x2d, 0x4a, 0xd8, 0xfb, 0x0ea5ca0d, 0xf2, 0xdd, 0x45)
  {
    hide Seeks, Turn;
    TurnsAtOnce(0x3a972835, 3, 10, 9, 7, 0x283, 5, 0xb7, 11, 7, 0xd8, 13, 8, 0xa0, 0x2d, 2, 13, 11, 12, 0x2a, 0x4a, 4,
                10, 12, 7, 0x1d4b941a, 0x14);
    TurnsAtOnce(0x1d4b941a, 1, 13, 4, 11, 0x941, 10, 0xd8, 13, 8, 0xfb, 15, 11, 0x2d, 0xf2, 15, 2, 10, 14, 0x4a, 0xdd,
                13, 13, 11, 0, 0x0ea5ca0d, 0x45);
  }

  lemma Turns2d()
    ensures Turn(0x0ea5ca0d, 0xf2, 0xdd, 0xfb, 0x80, 0x0752e506, 0xe7, 0x3b, 0x05)
    ensures Turn(0x0752e506, 0xe7, 0x3b, 0x80, 0xf3, 0x83a97283, 0x6e, 0x0d, 0x56)
  {
    hide Seeks, Turn;
    TurnsAtOnce(0x0ea5ca0d, 0, 14, 10, 5, 0xca0, 13, 0xfb, 15, 11, 0x80, 8, 0, 0xf2, 0xe7, 14, 7, 0, 5, 0xdd, 0x3b, 3,
                11, 8, 8, 0x0752e506, 0x05);
    TurnsAtOnce(0x0752e506, 0, 7, 5, 2, 0xe50, 6, 0x80, 8, 0, 0xf3, 15, 3, 0xe7, 0x6e, 6, 14, 9, 5, 0x3b, 0x0d, 0, 13,
                10, 5, 0x83a97283, 0x56);
  }

  lemma Turns2e()
    ensures Turn(0x83a97283, 0x6e, 0x0d, 0xf3, 0x44, 0x41d4b941, 0xde, 0x67, 0x2c)
    ensures Turn(0x41d4b941, 0xde, 0x67, 0x44, 0x61, 0x90752e50, 0xe3, 0xa5, 0x6d)
  {
    hide Seeks, Turn;
    TurnsAtOnce(0x83a97283, 8, 3, 10, 9, 0x728, 3, 0xf3, 15, 3, 0x44, 4, 4, 0x6e, 0xde, 13, 14, 15, 8, 0x0d, 0x67, 6,
                7, 6, 13, 0x41d4b941, 0x2c);
    Finds(false, 0x41d4b941, 4, 1, 13, 4, 0xb94, 1, 0x44, 4, 4, 0xde, 0xe3, 14, 3, 5, 12, 0, 12);
    Finds(true, 0x20ea5ca0, 2, 0, 14, 10, 0x5ca, 0, 0x44, 4, 4, 0xf7, 0xa5, 10, 5, 0, 0, 1, 0x00);
    Misses(true, 0x41d4b941, 4, 1, 13, 4, 0xb94, 1, 0x44, 4, 4, 0x67, 0xf7, 15, 7, 4, 9, 0, 0x20ea5ca0, 0x20ea5ca0,
           0xa5, 0x00);
    Turns(0x41d4b941, 0xde, 0x67, 0x44, 0x61, 6, 1, 0x41d4b941, 0xe3, 12, 0x20ea5ca0, 0xa5, 0, 2, 0, 14, 10, 0x5ca, 0,
          0x90752e50, 0x6d);
  }

  lemma Turns2f()
    ensures Turn(0x90752e50, 0xe3, 0xa5, 0x61, 0x3a, 0xc83a9728, 0xd4, 0xb9, 0x91)
    ensures Turn(0xc83a9728, 0xd4, 0xb9, 0x3a, 0x04, 0x641d4b94, 0xc6, 0xb9, 0xa7)
  {
    hide Seeks, Turn;
    TurnsAtOnce(0x90752e50, 9, 0, 7, 5, 0x2e5, 0, 0x61, 6, 1, 0x3a, 3, 10, 0xe3, 0xd4, 13, 4, 1, 11, 0xa5, 0xb9, 11,
                9, 10, 2, 0xc83a9728, 0x91);
    TurnsAtOnce(0xc83a9728, 12, 8, 3, 10, 0x972, 8, 0x3a, 3, 10, 0x04, 0, 4, 0xd4, 0xc6, 12, 6, 12, 3, 0xb9, 0xb9, 11,
                9, 10, 2, 0x641d4b94, 0xa7);
  }

  lemma Turns2g()
    ensures Turn(0x641d4b94, 0xc6, 0xb9, 0x04, 0x26, 0xd90752e5, 0xdc, 0xc3, 0x78)
    ensures Turn(0xd90752e5, 0xdc, 0xc3, 0x26, 0x75, 0x6c83a972, 0xdb, 0xe4, 0x1a)
  {
    hide Seeks, Turn;
    Finds(false, 0xb20ea5ca, 11, 2, 0, 14, 0xa5c, 10, 0x04, 0, 4, 0x26, 0xdc, 13, 12, 3, 14, 1, 14);
    Misses(false, 0x641d4b94, 6, 4, 1, 13, 0x4b9, 4, 0x04, 0, 4, 0xc6, 0x26, 2, 6, 6, 4, 0, 0xb20ea5ca, 0xb20ea5ca,
           0xdc, 14);
    Finds(true, 0xb20ea5ca, 11, 2, 0, 14, 0xa5c, 10, 0x04, 0, 4, 0xb9, 0xc3, 12, 3, 5, 10, 0, 0x50);
    Turns(0x641d4b94, 0xc6, 0xb9, 0x04, 0x26, 2, 6, 0xb20ea5ca, 0xdc, 14, 0xb20ea5ca, 0xc3, 5, 11, 2, 0, 14, 0xa5c,
          10, 0xd90752e5, 0x78);
    TurnsAtOnce(0xd90752e5, 13, 9, 0, 7, 0x52e, 5, 0x26, 2, 6, 0x75, 7, 5, 0xdc, 0xdb, 13, 11, 5, 15, 0xc3, 0xe4, 14,
                4, 6, 7, 0x6c83a972, 0x1a);
  }

  lemma Turns2h()
    ensures Turn(0x6c83a972, 0xdb, 0xe4, 0x75, 0xe2, 0xb641d4b9, 0xf4, 0xda, 0x3d)
    ensures Turn(0xb641d4b9, 0xf4, 0xda, 0xe2, 0xbb, 0x5b20ea5c, 0x48, 0x7d, 0x95)
  {
    hide Seeks, Turn;
    TurnsAtOnce(0x6c83a972, 6, 12, 8, 3, 0xa97, 2, 0x75, 7, 5, 0xe2, 14, 2, 0xdb, 0xf4, 15, 4, 2, 15, 0xe4, 0xda, 13,
                10, 13, 12, 0xb641d4b9, 0x3d);
    TurnsAtOnce(0xb641d4b9, 11, 6, 4, 1, 0xd4b, 9, 0xe2, 14, 2, 0xbb, 11, 11, 0xf4, 0x48, 4, 8, 13, 14, 0xda, 0x7d, 7,
                13, 2, 11, 0x5b20ea5c, 0x95);
  }

  lemma Mix2(st: State)
    requires At(st, 0, 0xa5ca0d7a, 0x1d, 0xbc)
    requires Reg(st, 0, 0xbb) && Reg(st, 1, 0xd5) && Reg(st, 2, 0x4b) && Reg(st, 3, 0x32)
    requires Reg(st, 4, 0xb7) && Reg(st, 5, 0xd8) && Reg(st, 6, 0xfb) && Reg(st, 7, 0x80)
    requires Reg(st, 8, 0xf3) && Reg(st, 9, 0x44) && Reg(st, 10, 0x61) && Reg(st, 11, 0x3a)
    requires Reg(st, 12, 0x04) && Reg(st, 13, 0x26) && Reg(st, 14, 0x75) && Reg(st, 15, 0xe2)
    ensures At(st, 16, 0x5b20ea5c, 0x48, 0x7d)
    ensures Out(st, 0, 0x2d) && Out(st, 1, 0x0c) && Out(st, 2, 0xb7) && Out(st, 3, 0xc0)
    ensures Out(st, 4, 0x14) && Out(st, 5, 0x45) && Out(st, 6, 0x05) && Out(st, 7, 0x56)
    ensures Out(st, 8, 0x2c) && Out(st, 9, 0x6d) && Out(st, 10, 0x91) && Out(st, 11, 0xa7)
    ensures Out(st, 12, 0x78) && Out(st, 13, 0x1a) && Out(st, 14, 0x3d) && Out(st, 15, 0x95)
  {
    hide At, Reg, Out, Turn;
    Turns2a();
    Turns2b();
    Turns2c();
    Turns2d();
    Turns2e();
    Turns2f();
    Turns2g();
    Turns2h();
    Take(st, 0, 1, 0xa5ca0d7a, 0x1d, 0xbc, 0xbb, 0xd5, 0xa972835e, 0x3b, 0x8b, 0x2d);
    Take(st, 1, 2, 0xa972835e, 0x3b, 0x8b, 0xd5, 0x4b, 0xea5ca0d7, 0xb8, 0xf7, 0x0c);
    Take(st, 2, 3, 0xea5ca0d7, 0xb8, 0xf7, 0x4b, 0x32, 0x752e506b, 0x59, 0x0e, 0xb7);
    Take(st, 3, 4, 0x752e506b, 0x59, 0x0e, 0x32, 0xb7, 0x3a972835, 0xa0, 0x2a, 0xc0);
    Take(st, 4, 5, 0x3a972835, 0xa0, 0x2a, 0xb7, 0xd8, 0x1d4b941a, 0x2d, 0x4a, 0x14);
    Take(st, 5, 6, 0x1d4b941a, 0x2d, 0x4a, 0xd8, 0xfb, 0x0ea5ca0d, 0xf2, 0xdd, 0x45);
    Take(st, 6, 7, 0x0ea5ca0d, 0xf2, 0xdd, 0xfb, 0x80, 0x0752e506, 0xe7, 0x3b, 0x05);
    Take(st, 7, 8, 0x0752e506, 0xe7, 0x3b, 0x80, 0xf3, 0x83a97283, 0x6e, 0x0d, 0x56);
    Take(st, 8, 9, 0x83a97283, 0x6e, 0x0d, 0xf3, 0x44, 0x41d4b941, 0xde, 0x67, 0x2c);
    Take(st, 9, 10, 0x41d4b941, 0xde, 0x67, 0x44, 0x61, 0x90752e50, 0xe3, 0xa5, 0x6d);
    Take(st, 10, 11, 0x90752e50, 0xe3, 0xa5, 0x61, 0x3a, 0xc83a9728, 0xd4, 0xb9, 0x91);
    Take(st, 11, 12, 0xc83a9728, 0xd4, 0xb9, 0x3a, 0x04, 0x641d4b94, 0xc6, 0xb9, 0xa7);
    Take(st, 12, 13, 0x641d4b94, 0xc6, 0xb9, 0x04, 0x26, 0xd90752e5, 0xdc, 0xc3, 0x78);
    Take(st, 13, 14, 0xd90752e5, 0xdc, 0xc3, 0x26, 0x75, 0x6c83a972, 0xdb, 0xe4, 0x1a);
    Take(st, 14, 15, 0x6c83a972, 0xdb, 0xe4, 0x75, 0xe2, 0xb641d4b9, 0xf4, 0xda, 0x3d);
    Take(st, 15, 0, 0xb641d4b9, 0xf4, 0xda, 0xe2, 0xbb, 0x5b20ea5c, 0x48, 0x7d, 0x95);
  }

  lemma Land2a(st: State, scratch: Registers, next: State)
    requires Leads(st, scratch, 2, next)
    requires Out(st, 0, 0x2d) && Out(st, 1, 0x0c) && Out(st, 2, 0xb7) && Out(st, 3, 0xc0) && Out(st, 15, 0x95)
    ensures Reg(next, 9, 0x96) && Reg(next, 7, 0x86) && Reg(next, 3, 0x5b) && Reg(next, 2, 0xe0)
  {
    hide Leads, Reg, Out;
    assert Reg(next, 9, 0x96) by {
      Lands(st, scratch, 2, next, 0, 15, 0x95, 9, 5, 0x2d, 2, 13, 5, 9, 0x96);
    }
    assert Reg(next, 7, 0x86) by {
      Lands(st, scratch, 2, next, 1, 0, 0x2d, 2, 13, 0x0c, 0, 12, 4, 7, 0x86);
    }
    assert Reg(next, 3, 0x5b) by {
      Lands(st, scratch, 2, next, 2, 1, 0x0c, 0, 12, 0xb7, 11, 7, 14, 3, 0x5b);
    }
    assert Reg(next, 2, 0xe0) by {
      Lands(st, scratch, 2, next, 3, 2, 0xb7, 11, 7, 0xc0, 12, 0, 13, 2, 0xe0);
    }
  }

  lemma Land2b(st: State, scratch: Registers, next: State)
    requires Leads(st, scratch, 2, next)
    requires Out(st, 3, 0xc0) && Out(st, 4, 0x14) && Out(st, 5, 0x45) && Out(st, 6, 0x05) && Out(st, 7, 0x56)
    ensures Reg(next, 15, 0x0a) && Reg(next, 14, 0x22) && Reg(next, 4, 0x82) && Reg(next, 10, 0xab)
  {
    hide Leads, Reg, Out;
    assert Reg(next, 15, 0x0a) by {
      Lands(st, scratch, 2, next, 4, 3, 0xc0, 12, 0, 0x14, 1, 4, 15, 15, 0x0a);
    }
    assert Reg(next, 14, 0x22) by {
      Lands(st, scratch, 2, next, 5, 4, 0x14, 1, 4, 0x45, 4, 5, 10, 14, 0x22);
    }
    assert Reg(next, 4, 0x82) by {
      Lands(st, scratch, 2, next, 6, 5, 0x45, 4, 5, 0x05, 0, 5, 6, 4, 0x82);
    }
    assert Reg(next, 10, 0xab) by {
      Lands(st, scratch, 2, next, 7, 6, 0x05, 0, 5, 0x56, 5, 6, 12, 10, 0xab);
    }
  }

  lemma Land2c(st: State, scratch: Registers, next: State)
    requires Leads(st, scratch, 2, next)
    requires Out(st, 7, 0x56) && Out(st, 8, 0x2c) && Out(st, 9, 0x6d) && Out(st, 10, 0x91) && Out(st, 11, 0xa7)
    ensures Reg(next, 5, 0x16) && Reg(next, 11, 0x36) && Reg(next, 13, 0xc8) && Reg(next, 8, 0xd3)
  {
    hide Leads, Reg, Out;
    assert Reg(next, 5, 0x16) by {
      Lands(st, scratch, 2, next, 8, 7, 0x56, 5, 6, 0x2c, 2, 12, 1, 5, 0x16);
    }
    assert Reg(next, 11, 0x36) by {
      Lands(st, scratch, 2, next, 9, 8, 0x2c, 2, 12, 0x6d, 6, 13, 8, 11, 0x36);
    }
    assert Reg(next, 13, 0xc8) by {
      Lands(st, scratch, 2, next, 10, 9, 0x6d, 6, 13, 0x91, 9, 1, 7, 13, 0xc8);
    }
    assert Reg(next, 8, 0xd3) by {
      Lands(st, scratch, 2, next, 11, 10, 0x91, 9, 1, 0xa7, 10, 7, 3, 8, 0xd3);
    }
  }

  lemma Land2d(st: State, scratch: Registers, next: State)
    requires Leads(st, scratch, 2, next)
    requires Out(st, 11, 0xa7) && Out(st, 12, 0x78) && Out(st, 13, 0x1a) && Out(st, 14, 0x3d) && Out(st, 15, 0x95)
    ensures Reg(next, 1, 0xbc) && Reg(next, 12, 0x0d) && Reg(next, 6, 0x1e) && Reg(next, 0, 0xca)
  {
    hide Leads, Reg, Out;
    assert Reg(next, 1, 0xbc) by {
      Lands(st, scratch, 2, next, 12, 11, 0xa7, 10, 7, 0x78, 7, 8, 2, 1, 0xbc);
    }
    assert Reg(next, 12, 0x0d) by {
      Lands(st, scratch, 2, next, 13, 12, 0x78, 7, 8, 0x1a, 1, 10, 11, 12, 0x0d);
    }
    assert Reg(next, 6, 0x1e) by {
      Lands(st, scratch, 2, next, 14, 13, 0x1a, 1, 10, 0x3d, 3, 13, 9, 6, 0x1e);
    }
    assert Reg(next, 0, 0xca) by {
      Lands(st, scratch, 2, next, 15, 14, 0x3d, 3, 13, 0x95, 9, 5, 0, 0, 0xca);
    }
  }

  lemma Round2(st: State, scratch: Registers, next: State)
    requires Leads(st, scratch, 2, next) && At(st, 0, 0xa5ca0d7a, 0x1d, 0xbc)
    requires Reg(st, 0, 0xbb) && Reg(st, 1, 0xd5) && Reg(st, 2, 0x4b) && Reg(st, 3, 0x32)
    requires Reg(st, 4, 0xb7) && Reg(st, 5, 0xd8) && Reg(st, 6, 0xfb) && Reg(st, 7, 0x80)
    requires Reg(st, 8, 0xf3) && Reg(st, 9, 0x44) && Reg(st, 10, 0x61) && Reg(st, 11, 0x3a)
    requires Reg(st, 12, 0x04) && Reg(st, 13, 0x26) && Reg(st, 14, 0x75) && Reg(st, 15, 0xe2)
    ensures At(next, 0, 0x5b20ea5c, 0x48, 0x7d)
    ensures Reg(next, 0, 0xca) && Reg(next, 1, 0xbc) && Reg(next, 2, 0xe0) && Reg(next, 3, 0x5b)
    ensures Reg(next, 4, 0x82) && Reg(next, 5, 0x16) && Reg(next, 6, 0x1e) && Reg(next, 7, 0x86)
    ensures Reg(next, 8, 0xd3) && Reg(next, 9, 0x96) && Reg(next, 10, 0xab) && Reg(next, 11, 0x36)
    ensures Reg(next, 12, 0x0d) && Reg(next, 13, 0xc8) && Reg(next, 14, 0x22) && Reg(next, 15, 0x0a)
  {
    hide Leads, At, Reg, Out;
    Mix2(st);
    Ends(st, scratch, 2, next, 0x5b20ea5c, 0x48, 0x7d);
    Land2a(st, scratch, next);
    Land2b(st, scratch, next);
    Land2c(st, scratch, next);
    Land2d(st, scratch, next);
  }

  // Round 1

  lemma Turns1a()
    ensures Turn(0x5b20ea5c, 0x48, 0x7d, 0xca, 0xbc, 0xad90752e, 0xd9, 0x67, 0xd1)
    ensures Turn(0xad90752e, 0xd9, 0x67, 0xbc, 0xe0, 0x56c83a97, 0xea, 0x93, 0xfb)
  {
    hide Seeks, Turn;
    TurnsAtOnce(0x5b20ea5c, 5, 11, 2, 0, 0xea5, 12, 0xca, 12, 10, 0xbc, 11, 12, 0x48, 0xd9, 13, 9, 9, 13, 0x7d, 0x67,
                6, 7, 6, 13, 0xad90752e, 0xd1);
    TurnsAtOnce(0xad90752e, 10, 13, 9, 0, 0x752, 14, 0xbc, 11, 12, 0xe0, 14, 0, 0xd9, 0xea, 14, 10, 12, 11, 0x67,
                0x93, 9, 3, 1, 7, 0x56c83a97, 0xfb);
  }

  lemma Turns1b()
    ensures Turn(0x56c83a97, 0xea, 0x93, 0xe0, 0x5b, 0x2b641d4b, 0xa0, 0xbb, 0x7c)
    ensures Turn(0x2b641d4b, 0xa0, 0xbb, 0x5b, 0x82, 0x256c83a9, 0x10, 0x65, 0xa8)
  {
    hide Seeks, Turn;
    TurnsAtOnce(0x56c83a97, 5, 6, 12, 8, 0x3a9, 7, 0xe0, 14, 0, 0x5b, 5, 11, 0xea, 0xa0, 10, 0, 14, 7, 0x93, 0xbb, 11,
                11, 2, 13, 0x2b641d4b, 0x7c);
    Finds(false, 0x2b641d4b, 2, 11, 6, 4, 0x1d4, 11, 0x5b, 5, 11, 0xa0, 0x10, 1, 0, 0, 10, 0, 10);
    Finds(true, 0x4ad90752, 4, 10, 13, 9, 0x75, 2, 0x5b, 5, 11, 0xe3, 0x65, 6, 5, 2, 6, 2, 0x20);
    Misses(true, 0x95b20ea5, 9, 5, 11, 2, 0xea, 5, 0x5b, 5, 11, 0xfa, 0xe3, 14, 3, 5, 12, 1, 0x4ad90752, 0x4ad90752,
           0x65, 0x20);
    Misses(true, 0x2b641d4b, 2, 11, 6, 4, 0x1d4, 11, 0x5b, 5, 11, 0xbb, 0xfa, 15, 10, 5, 8, 0, 0x95b20ea5, 0x4ad90752,
           0x65, 0x20);
    Turns(0x2b641d4b, 0xa0, 0xbb, 0x5b, 0x82, 8, 2, 0x2b641d4b, 0x10, 10, 0x4ad90752, 0x65, 2, 4, 10, 13, 9, 0x75, 2,
          0x256c83a9, 0xa8);
  }

  lemma Turns1c()
    ensures Turn(0x256c83a9, 0x10, 0x65, 0x82, 0x16, 0x12b641d4, 0xb7, 0x53, 0xe3)
    ensures Turn(0x12b641d4, 0xb7, 0x53, 0x16, 0x1e, 0x895b20ea, 0xbb, 0xf3, 0x13)
  {
    hide Seeks, Turn;
    TurnsAtOnce(0x256c83a9, 2, 5, 6, 12, 0x83a, 9, 0x82, 8, 2, 0x16, 1, 6, 0x10, 0xb7, 11, 7, 12, 5, 0x65, 0x53, 5, 3,
                15, 1, 0x12b641d4, 0xe3);
    TurnsAtOnce(0x12b641d4, 1, 2, 11, 6, 0x41d, 4, 0x16, 1, 6, 0x1e, 1, 14, 0xb7, 0xbb, 11, 11, 2, 13, 0x53, 0xf3, 15,
                3, 0, 1, 0x895b20ea, 0x13);
  }

  lemma Turns1d()
    ensures Turn(0x895b20ea, 0xbb, 0xf3, 0x1e, 0x86, 0x44ad9075, 0x52, 0x38, 0x7c)
    ensures Turn(0x44ad9075, 0x52, 0x38, 0x86, 0xd3, 0x2256c83a, 0x14, 0x63, 0x03)
  {
    hide Seeks, Turn;
    TurnsAtOnce(0x895b20ea, 8, 9, 5, 11, 0x20e, 10, 0x1e, 1, 14, 0x86, 8, 6, 0xbb, 0x52, 5, 2, 0, 10, 0xf3, 0x38, 3,
                8, 15, 2, 0x44ad9075, 0x7c);
    TurnsAtOnce(0x44ad9075, 4, 4, 10, 13, 0x907, 5, 0x86, 8, 6, 0xd3, 13, 3, 0x52, 0x14, 1, 4, 1, 0, 0x38, 0x63, 6, 3,
                13, 1, 0x2256c83a, 0x03);
  }

  lemma Turns1e()
    ensures Turn(0x2256c83a, 0x14, 0x63, 0xd3, 0x96, 0x112b641d, 0x05, 0xe8, 0xbe)
    ensures Turn(0x112b641d, 0x05, 0xe8, 0x96, 0xab, 0x0895b20e, 0x8c, 0xa5, 0xa4)
  {
    hide Seeks, Turn;
    TurnsAtOnce(0x2256c83a, 2, 2, 5, 6, 0xc83, 10, 0xd3, 13, 3, 0x96, 9, 6, 0x14, 0x05, 0, 5, 6, 8, 0x63, 0xe8, 14, 8,
                2, 2, 0x112b641d, 0xbe);
    TurnsAtOnce(0x112b641d, 1, 1, 2, 11, 0x641, 13, 0x96, 9, 6, 0xab, 10, 11, 0x05, 0x8c, 8, 12, 2, 15, 0xe8, 0xa5,
                10, 5, 0, 0, 0x0895b20e, 0xa4);
  }

  lemma Turns1f()
    ensures Turn(0x0895b20e, 0x8c, 0xa5, 0xab, 0x36, 0x044ad907, 0x2f, 0xe3, 0x66)
    ensures Turn(0x044ad907, 0x2f, 0xe3, 0x36, 0x0d, 0x02256c83, 0x61, 0x5f, 0xda)
  {
    hide Seeks, Turn;
    TurnsAtOnce(0x0895b20e, 0, 8, 9, 5, 0xb20, 14, 0xab, 10, 11, 0x36, 3, 6, 0x8c, 0x2f, 2, 15, 0, 0, 0xa5, 0xe3, 14,
                3, 5, 12, 0x044ad907, 0x66);
    TurnsAtOnce(0x044ad907, 0, 4, 4, 10, 0xd90, 7, 0x36, 3, 6, 0x0d, 0, 13, 0x2f, 0x61, 6, 1, 7, 7, 0xe3, 0x5f, 5, 15,
                13, 14, 0x02256c83, 0xda);
  }

  lemma Turns1g()
    ensures Turn(0x02256c83, 0x61, 0x5f, 0x0d, 0xc8, 0x0112b641, 0x70, 0x87, 0x89)
    ensures Turn(0x0112b641, 0x70, 0x87, 0xc8, 0x22, 0x80895b20, 0x39, 0x61, 0x52)
  {
    hide Seeks, Turn;
    TurnsAtOnce(0x02256c83, 0, 2, 2, 5, 0x6c8, 3, 0x0d, 0, 13, 0xc8, 12, 8, 0x61, 0x70, 7, 0, 11, 1, 0x5f, 0x87, 8, 7,
                4, 14, 0x0112b641, 0x89);
    TurnsAtOnce(0x0112b641, 0, 1, 1, 2, 0xb64, 1, 0xc8, 12, 8, 0x22, 2, 2, 0x70, 0x39, 3, 9, 7, 0, 0x87, 0x61, 6, 1,
                7, 7, 0x80895b20, 0x52);
  }

  lemma Turns1h()
    ensures Turn(0x80895b20, 0x39, 0x61, 0x22, 0x0a, 0x4044ad90, 0xdb, 0x0c, 0x15)
    ensures Turn(0x4044ad90, 0xdb, 0x0c, 0x0a, 0xca, 0xa02256c8, 0x25, 0x5a, 0x94)
  {
    hide Seeks, Turn;
    TurnsAtOnce(0x80895b20, 8, 0, 8, 9, 0x5b2, 0, 0x22, 2, 2, 0x0a, 0, 10, 0x39, 0xdb, 13, 11, 5, 15, 0x61, 0x0c, 0,
                12, 1, 1, 0x4044ad90, 0x15);
    TurnsAtOnce(0x4044ad90, 4, 0, 4, 4, 0xad9, 0, 0x0a, 0, 10, 0xca, 12, 10, 0xdb, 0x25, 2, 5, 10, 14, 0x0c, 0x5a, 5,
                10, 5, 15, 0xa02256c8, 0x94);
  }

  lemma Mix1(st: State)
    requires At(st, 0, 0x5b20ea5c, 0x48, 0x7d)
    requires Reg(st, 0, 0xca) && Reg(st, 1, 0xbc) && Reg(st, 2, 0xe0) && Reg(st, 3, 0x5b)
    requires Reg(st, 4, 0x82) && Reg(st, 5, 0x16) && Reg(st, 6, 0x1e) && Reg(st, 7, 0x86)
    requires Reg(st, 8, 0xd3) && Reg(st, 9, 0x96) && Reg(st, 10, 0xab) && Reg(st, 11, 0x36)
    requires Reg(st, 12, 0x0d) && Reg(st, 13, 0xc8) && Reg(st, 14, 0x22) && Reg(st, 15, 0x0a)
    ensures At(st, 16, 0xa02256c8, 0x25, 0x5a)
    ensures Out(st, 0, 0xd1) && Out(st, 1, 0xfb) && Out(st, 2, 0x7c) && Out(st, 3, 0xa8)
    ensures Out(st, 4, 0xe3) && Out(st, 5, 0x13) && Out(st, 6, 0x7c) && Out(st, 7, 0x03)
    ensures Out(st, 8, 0xbe) && Out(st, 9, 0xa4) && Out(st, 10, 0x66) && Out(st, 11, 0xda)
    ensures Out(st, 12, 0x89) && Out(st, 13, 0x52) && Out(st, 14, 0x15) && Out(st, 15, 0x94)
  {
    hide At, Reg, Out, Turn;
    Turns1a();
    Turns1b();
    Turns1c();
    Turns1d();
    Turns1e();
    Turns1f();
    Turns1g();
    Turns1h();
    Take(st, 0, 1, 0x5b20ea5c, 0x48, 0x7d, 0xca, 0xbc, 0xad90752e, 0xd9, 0x67, 0xd1);
    Take(st, 1, 2, 0xad90752e, 0xd9, 0x67, 0xbc, 0xe0, 0x56c83a97, 0xea, 0x93, 0xfb);
    Take(st, 2, 3, 0x56c83a97, 0xea, 0x93, 0xe0, 0x5b, 0x2b641d4b, 0xa0, 0xbb, 0x7c);
    Take(st, 3, 4, 0x2b641d4b, 0xa0, 0xbb, 0x5b, 0x82, 0x256c83a9, 0x10, 0x65, 0xa8);
    Take(st, 4, 5, 0x256c83a9, 0x10, 0x65, 0x82, 0x16, 0x12b641d4, 0xb7, 0x53, 0xe3);
    Take(st, 5, 6, 0x12b641d4, 0xb7, 0x53, 0x16, 0x1e, 0x895b20ea, 0xbb, 0xf3, 0x13);
    Take(st, 6, 7, 0x895b20ea, 0xbb, 0xf3, 0x1e, 0x86, 0x44ad9075, 0x52, 0x38, 0x7c);
    Take(st, 7, 8, 0x44ad9075, 0x52, 0x38, 0x86, 0xd3, 0x2256c83a, 0x14, 0x63, 0x03);
    Take(st, 8, 9, 0x2256c83a, 0x14, 0x63, 0xd3, 0x96, 0x112b641d, 0x05, 0xe8, 0xbe);
    Take(st, 9, 10, 0x112b641d, 0x05, 0xe8, 0x96, 0xab, 0x0895b20e, 0x8c, 0xa5, 0xa4);
    Take(st, 10, 11, 0x0895b20e, 0x8c, 0xa5, 0xab, 0x36, 0x044ad907, 0x2f, 0xe3, 0x66);
    Take(st, 11, 12, 0x044ad907, 0x2f, 0xe3, 0x36, 0x0d, 0x02256c83, 0x61, 0x5f, 0xda);
    Take(st, 12, 13, 0x02256c83, 0x61, 0x5f, 0x0d, 0xc8, 0x0112b641, 0x70, 0x87, 0x89);
    Take(st, 13, 14, 0x0112b641, 0x70, 0x87, 0xc8, 0x22, 0x80895b20, 0x39, 0x61, 0x52);
    Take(st, 14, 15, 0x80895b20, 0x39, 0x61, 0x22, 0x0a, 0x4044ad90, 0xdb, 0x0c, 0x15);
    Take(st, 15, 0, 0x4044ad90, 0xdb, 0x0c, 0x0a, 0xca, 0xa02256c8, 0x25, 0x5a, 0x94);
  }

  lemma Land1a(st: State, scratch: Registers, next: State)
    requires Leads(st, scratch, 1, next)
    requires Out(st, 0, 0xd1) && Out(st, 1, 0xfb) && Out(st, 2, 0x7c) && Out(st, 3, 0xa8) && Out(st, 15, 0x94)
    ensures Reg(next, 10, 0x68) && Reg(next, 6, 0xfd) && Reg(next, 7, 0xbe) && Reg(next, 13, 0x54)
  {
    hide Leads, Reg, Out;
    assert Reg(next, 10, 0x68) by {
      Lands(st, scratch, 1, next, 0, 15, 0x94, 9, 4, 0xd1, 13, 1, 0, 10, 0x68);
    }
    assert Reg(next, 6, 0xfd) by {
      Lands(st, scratch, 1, next, 1, 0, 0xd1, 13, 1, 0xfb, 15, 11, 4, 6, 0xfd);
    }
    assert Reg(next, 7, 0xbe) by {
      Lands(st, scratch, 1, next, 2, 1, 0xfb, 15, 11, 0x7c, 7, 12, 7, 7, 0xbe);
    }
    assert Reg(next, 13, 0x54) by {
      Lands(st, scratch, 1, next, 3, 2, 0x7c, 7, 12, 0xa8, 10, 8, 8, 13, 0x54);
    }
  }

  lemma Land1b(st: State, scratch: Registers, next: State)
    requires Leads(st, scratch, 1, next)
    requires Out(st, 3, 0xa8) && Out(st, 4, 0xe3) && Out(st, 5, 0x13) && Out(st, 6, 0x7c) && Out(st, 7, 0x03)
    ensures Reg(next, 0, 0x71) && Reg(next, 15, 0x89) && Reg(next, 14, 0xbe) && Reg(next, 2, 0x01)
  {
    hide Leads, Reg, Out;
    assert Reg(next, 0, 0x71) by {
      Lands(st, scratch, 1, next, 4, 3, 0xa8, 10, 8, 0xe3, 14, 3, 1, 0, 0x71);
    }
    assert Reg(next, 15, 0x89) by {
      Lands(st, scratch, 1, next, 5, 4, 0xe3, 14, 3, 0x13, 1, 3, 9, 15, 0x89);
    }
    assert Reg(next, 14, 0xbe) by {
      Lands(st, scratch, 1, next, 6, 5, 0x13, 1, 3, 0x7c, 7, 12, 5, 14, 0xbe);
    }
    assert Reg(next, 2, 0x01) by {
      Lands(st, scratch, 1, next, 7, 6, 0x7c, 7, 12, 0x03, 0, 3, 6, 2, 0x01);
    }
  }

  lemma Land1c(st: State, scratch: Registers, next: State)
    requires Leads(st, scratch, 1, next)
    requires Out(st, 7, 0x03) && Out(st, 8, 0xbe) && Out(st, 9, 0xa4) && Out(st, 10, 0x66) && Out(st, 11, 0xda)
    ensures Reg(next, 1, 0xdf) && Reg(next, 4, 0x52) && Reg(next, 12, 0x33) && Reg(next, 5, 0x6d)
  {
    hide Leads, Reg, Out;
    assert Reg(next, 1, 0xdf) by {
      Lands(st, scratch, 1, next, 8, 7, 0x03, 0, 3, 0xbe, 11, 14, 15, 1, 0xdf);
    }
    assert Reg(next, 4, 0x52) by {
      Lands(st, scratch, 1, next, 9, 8, 0xbe, 11, 14, 0xa4, 10, 4, 3, 4, 0x52);
    }
    assert Reg(next, 12, 0x33) by {
      Lands(st, scratch, 1, next, 10, 9, 0xa4, 10, 4, 0x66, 6, 6, 14, 12, 0x33);
    }
    assert Reg(next, 5, 0x6d) by {
      Lands(st, scratch, 1, next, 11, 10, 0x66, 6, 6, 0xda, 13, 10, 10, 5, 0x6d);
    }
  }

  lemma Land1d(st: State, scratch: Registers, next: State)
    requires Leads(st, scratch, 1, next)
    requires Out(st, 11, 0xda) && Out(st, 12, 0x89) && Out(st, 13, 0x52) && Out(st, 14, 0x15) && Out(st, 15, 0x94)
    ensures Reg(next, 9, 0x44) && Reg(next, 3, 0xa9) && Reg(next, 8, 0x0a) && Reg(next, 11, 0xca)
  {
    hide Leads, Reg, Out;
    assert Reg(next, 9, 0x44) by {
      Lands(st, scratch, 1, next, 12, 11, 0xda, 13, 10, 0x89, 8, 9, 12, 9, 0x44);
    }
    assert Reg(next, 3, 0xa9) by {
      Lands(st, scratch, 1, next, 13, 12, 0x89, 8, 9, 0x52, 5, 2, 11, 3, 0xa9);
    }
    assert Reg(next, 8, 0x0a) by {
      Lands(st, scratch, 1, next, 14, 13, 0x52, 5, 2, 0x15, 1, 5, 13, 8, 0x0a);
    }
    assert Reg(next, 11, 0xca) by {
      Lands(st, scratch, 1, next, 15, 14, 0x15, 1, 5, 0x94, 9, 4, 2, 11, 0xca);
    }
  }

  lemma Round1(st: State, scratch: Registers, next: State)
    requires Leads(st, scratch, 1, next) && At(st, 0, 0x5b20ea5c, 0x48, 0x7d)
    requires Reg(st, 0, 0xca) && Reg(st, 1, 0xbc) && Reg(st, 2, 0xe0) && Reg(st, 3, 0x5b)
    requires Reg(st, 4, 0x82) && Reg(st, 5, 0x16) && Reg(st, 6, 0x1e) && Reg(st, 7, 0x86)
    requires Reg(st, 8, 0xd3) && Reg(st, 9, 0x96) && Reg(st, 10, 0xab) && Reg(st, 11, 0x36)
    requires Reg(st, 12, 0x0d) && Reg(st, 13, 0xc8) && Reg(st, 14, 0x22) && Reg(st, 15, 0x0a)
    ensures At(next, 0, 0xa02256c8, 0x25, 0x5a)
    ensures Reg(next, 0, 0x71) && Reg(next, 1, 0xdf) && Reg(next, 2, 0x01) && Reg(next, 3, 0xa9)
    ensures Reg(next, 4, 0x52) && Reg(next, 5, 0x6d) && Reg(next, 6, 0xfd) && Reg(next, 7, 0xbe)
    ensures Reg(next, 8, 0x0a) && Reg(next, 9, 0x44) && Reg(next, 10, 0x68) && Reg(next, 11, 0xca)
    ensures Reg(next, 12, 0x33) && Reg(next, 13, 0x54) && Reg(next, 14, 0xbe) && Reg(next, 15, 0x89)
  {
    hide Leads, At, Reg, Out;
    Mix1(st);
    Ends(st, scratch, 1, next, 0xa02256c8, 0x25, 0x5a);
    Land1a(st, scratch, next);
    Land1b(st, scratch, next);
    Land1c(st, scratch, next);
    Land1d(st, scratch, next);
  }

  // Round 0

  lemma Turns0a()
    ensures Turn(0xa02256c8, 0x25, 0x5a, 0x71, 0xdf, 0x50112b64, 0xf6, 0xad, 0x6c)
    ensures Turn(0x50112b64, 0xf6, 0xad, 0xdf, 0x01, 0xa80895b2, 0x85, 0x7b, 0x72)
  {
    hide Seeks, Turn;
    TurnsAtOnce(0xa02256c8, 10, 0, 2, 2, 0x56c, 8, 0x71, 7, 1, 0xdf, 13, 15, 0x25, 0xf6, 15, 6, 12, 3, 0x5a, 0xad, 10,
                13, 11, 6, 0x50112b64, 0x6c);
    TurnsAtOnce(0x50112b64, 5, 0, 1, 1, 0x2b6, 4, 0xdf, 13, 15, 0x01, 0, 1, 0xf6, 0x85, 8, 5, 1, 3, 0xad, 0x7b, 7, 11,
                7, 12, 0xa80895b2, 0x72);
  }

  lemma Turns0b()
    ensures Turn(0xa80895b2, 0x85, 0x7b, 0x01, 0xa9, 0xd4044ad9, 0x2e, 0x84, 0x3f)
    ensures Turn(0xd4044ad9, 0x2e, 0x84, 0xa9, 0x52, 0xf50112b6, 0xee, 0x2f, 0x52)
  {
    hide Seeks, Turn;
    TurnsAtOnce(0xa80895b2, 10, 8, 0, 8, 0x95b, 2, 0x01, 0, 1, 0xa9, 10, 9, 0x85, 0x2e, 2, 14, 9, 6, 0x7b, 0x84, 8, 4,
                9, 7, 0xd4044ad9, 0x3f);
    Finds(false, 0xea02256c, 14, 10, 0, 2, 0x256, 12, 0xa9, 10, 9, 0xab, 0xee, 14, 14, 13, 0, 1, 0);
    Misses(false, 0xd4044ad9, 13, 4, 0, 4, 0x4ad, 9, 0xa9, 10, 9, 0x2e, 0xab, 10, 11, 12, 9, 0, 0xea02256c,
           0xea02256c, 0xee, 0);
    Finds(true, 0xea02256c, 14, 10, 0, 2, 0x256, 12, 0xa9, 10, 9, 0x84, 0x2f, 2, 15, 0, 0, 0, 0x00);
    Turns(0xd4044ad9, 0x2e, 0x84, 0xa9, 0x52, 5, 2, 0xea02256c, 0xee, 0, 0xea02256c, 0x2f, 0, 14, 10, 0, 2, 0x256, 12,
          0xf50112b6, 0x52);
  }

  lemma Turns0c()
    ensures Turn(0xf50112b6, 0xee, 0x2f, 0x52, 0x6d, 0x7a80895b, 0x95, 0x82, 0x65)
    ensures Turn(0x7a80895b, 0x95, 0x82, 0x6d, 0xfd, 0x3d4044ad, 0xac, 0x6f, 0xb3)
  {
    hide Seeks, Turn;
    TurnsAtOnce(0xf50112b6, 15, 5, 0, 1, 0x12b, 6, 0x52, 5, 2, 0x6d, 6, 13, 0xee, 0x95, 9, 5, 3, 8, 0x2f, 0x82, 8, 2,
                0, 13, 0x7a80895b, 0x65);
    TurnsAtOnce(0x7a80895b, 7, 10, 8, 0, 0x895, 11, 0x6d, 6, 13, 0xfd, 15, 13, 0x95, 0xac, 10, 12, 9, 14, 0x82, 0x6f,
                6, 15, 4, 14, 0x3d4044ad, 0xb3);
  }

  lemma Turns0d()
    ensures Turn(0x3d4044ad, 0xac, 0x6f, 0xfd, 0xbe, 0x9ea02256, 0x6c, 0x2c, 0x94)
    ensures Turn(0x9ea02256, 0x6c, 0x2c, 0xbe, 0x0a, 0x4f50112b, 0x8c, 0x4a, 0xc5)
  {
    hide Seeks, Turn;
    TurnsAtOnce(0x3d4044ad, 3, 13, 4, 0, 0x44a, 13, 0xfd, 15, 13, 0xbe, 11, 14, 0xac, 0x6c, 6, 12, 3, 10, 0x6f, 0x2c,
                2, 12, 2, 1, 0x9ea02256, 0x94);
    TurnsAtOnce(0x9ea02256, 9, 14, 10, 0, 0x225, 6, 0xbe, 11, 14, 0x0a, 0, 10, 0x6c, 0x8c, 8, 12, 2, 15, 0x2c, 0x4a,
                4, 10, 12, 7, 0x4f50112b, 0xc5);
  }

  lemma Turns0e()
    ensures Turn(0x4f50112b, 0x8c, 0x4a, 0x0a, 0x44, 0xa7a80895, 0xd1, 0xa4, 0x2d)
    ensures Turn(0xa7a80895, 0xd1, 0xa4, 0x44, 0x68, 0x53d4044a, 0xb4, 0x90, 0xf6)
  {
    hide Seeks, Turn;
    TurnsAtOnce(0x4f50112b, 4, 15, 5, 0, 0x112, 11, 0x0a, 0, 10, 0x44, 4, 4, 0x8c, 0xd1, 13, 1, 7, 9, 0x4a, 0xa4, 10,
                4, 6, 15, 0xa7a80895, 0x2d);
    TurnsAtOnce(0xa7a80895, 10, 7, 10, 8, 0x89, 5, 0x44, 4, 4, 0x68, 6, 8, 0xd1, 0xb4, 11, 4, 15, 14, 0xa4, 0x90, 9,
                0, 9, 1, 0x53d4044a, 0xf6);
  }

  lemma Turns0f()
    ensures Turn(0x53d4044a, 0xb4, 0x90, 0x68, 0xca, 0x29ea0225, 0xef, 0x4c, 0x37)
    ensures Turn(0x29ea0225, 0xef, 0x4c, 0xca, 0x33, 0x94f50112, 0xd2, 0x6c, 0x00)
  {
    hide Seeks, Turn;
    TurnsAtOnce(0x53d4044a, 5, 3, 13, 4, 0x44, 10, 0x68, 6, 8, 0xca, 12, 10, 0xb4, 0xef, 14, 15, 4, 13, 0x90, 0x4c, 4,
                12, 15, 1, 0x29ea0225, 0x37);
    TurnsAtOnce(0x29ea0225, 2, 9, 14, 10, 0x22, 5, 0xca, 12, 10, 0x33, 3, 3, 0xef, 0xd2, 13, 2, 14, 3, 0x4c, 0x6c, 6,
                12, 3, 10, 0x94f50112, 0x00);
  }

  lemma Turns0g()
    ensures Turn(0x94f50112, 0xd2, 0x6c, 0x33, 0x54, 0x4a7a8089, 0x79, 0x32, 0x7b)
    ensures Turn(0x4a7a8089, 0x79, 0x32, 0x54, 0xbe, 0x929ea022, 0x08, 0x9b, 0xd5)
  {
    hide Seeks, Turn;
    TurnsAtOnce(0x94f50112, 9, 4, 15, 5, 0x11, 2, 0x33, 3, 3, 0x54, 5, 4, 0xd2, 0x79, 7, 9, 1, 15, 0x6c, 0x32, 3, 2,
                2, 3, 0x4a7a8089, 0x7b);
    Finds(false, 0x253d4044, 2, 5, 3, 13, 0x404, 4, 0x54, 5, 4, 0x97, 0x08, 0, 8, 7, 11, 1, 11);
    Misses(false, 0x4a7a8089, 4, 10, 7, 10, 0x808, 9, 0x54, 5, 4, 0x79, 0x97, 9, 7, 8, 4, 0, 0x253d4044, 0x253d4044,
           0x08, 11);
    Finds(true, 0x253d4044, 2, 5, 3, 13, 0x404, 4, 0x54, 5, 4, 0x32, 0x9b, 9, 11, 6, 5, 0, 0x60);
    Turns(0x4a7a8089, 0x79, 0x32, 0x54, 0xbe, 11, 14, 0x253d4044, 0x08, 11, 0x253d4044, 0x9b, 6, 2, 5, 3, 13, 0x404,
          4, 0x929ea022, 0xd5);
  }

  lemma Turns0h()
    ensures Turn(0x929ea022, 0x08, 0x9b, 0xbe, 0x89, 0xc94f5011, 0x34, 0xbb, 0xae)
    ensures Turn(0xc94f5011, 0x34, 0xbb, 0x89, 0x71, 0x3253d404, 0x74, 0xaf, 0xd9)
  {
    hide Seeks, Turn;
    TurnsAtOnce(0x929ea022, 9, 2, 9, 14, 0xa02, 2, 0xbe, 11, 14, 0x89, 8, 9, 0x08, 0x34, 3, 4, 9, 7, 0x9b, 0xbb, 11,
                11, 2, 13, 0xc94f5011, 0xae);
    Finds(false, 0xc94f5011, 12, 9, 4, 15, 0x501, 1, 0x89, 8, 9, 0x34, 0x74, 7, 4, 15, 8, 0, 8);
    Finds(true, 0x64a7a808, 6, 4, 10, 7, 0xa80, 8, 0x89, 8, 9, 0x81, 0xaf, 10, 15, 10, 11, 1, 0xa0);
    Misses(true, 0xc94f5011, 12, 9, 4, 15, 0x501, 1, 0x89, 8, 9, 0xbb, 0x81, 8, 1, 8, 6, 0, 0x64a7a808, 0x64a7a808,
           0xaf, 0xa0);
    Turns(0xc94f5011, 0x34, 0xbb, 0x89, 0x71, 7, 1, 0xc94f5011, 0x74, 8, 0x64a7a808, 0xaf, 10, 6, 4, 10, 7, 0xa80, 8,
          0x3253d404, 0xd9);
  }

  lemma Mix0(st: State)
    requires At(st, 0, 0xa02256c8, 0x25, 0x5a)
    requires Reg(st, 0, 0x71) && Reg(st, 1, 0xdf) && Reg(st, 2, 0x01) && Reg(st, 3, 0xa9)
    requires Reg(st, 4, 0x52) && Reg(st, 5, 0x6d) && Reg(st, 6, 0xfd) && Reg(st, 7, 0xbe)
    requires Reg(st, 8, 0x0a) && Reg(st, 9, 0x44) && Reg(st, 10, 0x68) && Reg(st, 11, 0xca)
    requires Reg(st, 12, 0x33) && Reg(st, 13, 0x54) && Reg(st, 14, 0xbe) && Reg(st, 15, 0x89)
    ensures At(st, 16, 0x3253d404, 0x74, 0xaf)
    ensures Out(st, 0, 0x6c) && Out(st, 1, 0x72) && Out(st, 2, 0x3f) && Out(st, 3, 0x52)
    ensures Out(st, 4, 0x65) && Out(st, 5, 0xb3) && Out(st, 6, 0x94) && Out(st, 7, 0xc5)
    ensures Out(st, 8, 0x2d) && Out(st, 9, 0xf6) && Out(st, 10, 0x37) && Out(st, 11, 0x00)
    ensures Out(st, 12, 0x7b) && Out(st, 13, 0xd5) && Out(st, 14, 0xae) && Out(st, 15, 0xd9)
  {
    hide At, Reg, Out, Turn;
    Turns0a();
    Turns0b();
    Turns0c();
    Turns0d();
    Turns0e();
    Turns0f();
    Turns0g();
    Turns0h();
    Take(st, 0, 1, 0xa02256c8, 0x25, 0x5a, 0x71, 0xdf, 0x50112b64, 0xf6, 0xad, 0x6c);
    Take(st, 1, 2, 0x50112b64, 0xf6, 0xad, 0xdf, 0x01, 0xa80895b2, 0x85, 0x7b, 0x72);
    Take(st, 2, 3, 0xa80895b2, 0x85, 0x7b, 0x01, 0xa9, 0xd4044ad9, 0x2e, 0x84, 0x3f);
    Take(st, 3, 4, 0xd4044ad9, 0x2e, 0x84, 0xa9, 0x52, 0xf50112b6, 0xee, 0x2f, 0x52);
    Take(st, 4, 5, 0xf50112b6, 0xee, 0x2f, 0x52, 0x6d, 0x7a80895b, 0x95, 0x82, 0x65);
    Take(st, 5, 6, 0x7a80895b, 0x95, 0x82, 0x6d, 0xfd, 0x3d4044ad, 0xac, 0x6f, 0xb3);
    Take(st, 6, 7, 0x3d4044ad, 0xac, 0x6f, 0xfd, 0xbe, 0x9ea02256, 0x6c, 0x2c, 0x94);
    Take(st, 7, 8, 0x9ea02256, 0x6c, 0x2c, 0xbe, 0x0a, 0x4f50112b, 0x8c, 0x4a, 0xc5);
    Take(st, 8, 9, 0x4f50112b, 0x8c, 0x4a, 0x0a, 0x44, 0xa7a80895, 0xd1, 0xa4, 0x2d);
    Take(st, 9, 10, 0xa7a80895, 0xd1, 0xa4, 0x44, 0x68, 0x53d4044a, 0xb4, 0x90, 0xf6);
    Take(st, 10, 11, 0x53d4044a, 0xb4, 0x90, 0x68, 0xca, 0x29ea0225, 0xef, 0x4c, 0x37);
    Take(st, 11, 12, 0x29ea0225, 0xef, 0x4c, 0xca, 0x33, 0x94f50112, 0xd2, 0x6c, 0x00);
    Take(st, 12, 13, 0x94f50112, 0xd2, 0x6c, 0x33, 0x54, 0x4a7a8089, 0x79, 0x32, 0x7b);
    Take(st, 13, 14, 0x4a7a8089, 0x79, 0x32, 0x54, 0xbe, 0x929ea022, 0x08, 0x9b, 0xd5);
    Take(st, 14, 15, 0x929ea022, 0x08, 0x9b, 0xbe, 0x89, 0xc94f5011, 0x34, 0xbb, 0xae);
    Take(st, 15, 0, 0xc94f5011, 0x34, 0xbb, 0x89, 0x71, 0x3253d404, 0x74, 0xaf, 0xd9);
  }

  lemma Land0a(st: State, scratch: Registers, next: State)
    requires Leads(st, scratch, 0, next)
    requires Out(st, 0, 0x6c) && Out(st, 1, 0x72) && Out(st, 2, 0x3f) && Out(st, 3, 0x52) && Out(st, 15, 0xd9)
    ensures Reg(next, 9, 0xb6) && Reg(next, 3, 0x39) && Reg(next, 15, 0x1f) && Reg(next, 6, 0xa9)
  {
    hide Leads, Reg, Out;
    assert Reg(next, 9, 0xb6) by {
      Lands(st, scratch, 0, next, 0, 15, 0xd9, 13, 9, 0x6c, 6, 12, 13, 9, 0xb6);
    }
    assert Reg(next, 3, 0x39) by {
      Lands(st, scratch, 0, next, 1, 0, 0x6c, 6, 12, 0x72, 7, 2, 2, 3, 0x39);
    }
    assert Reg(next, 15, 0x1f) by {
      Lands(st, scratch, 0, next, 2, 1, 0x72, 7, 2, 0x3f, 3, 15, 5, 15, 0x1f);
    }
    assert Reg(next, 6, 0xa9) by {
      Lands(st, scratch, 0, next, 3, 2, 0x3f, 3, 15, 0x52, 5, 2, 14, 6, 0xa9);
    }
  }

  lemma Land0b(st: State, scratch: Registers, next: State)
    requires Leads(st, scratch, 0, next)
    requires Out(st, 3, 0x52) && Out(st, 4, 0x65) && Out(st, 5, 0xb3) && Out(st, 6, 0x94) && Out(st, 7, 0xc5)
    ensures Reg(next, 10, 0x32) && Reg(next, 8, 0xd9) && Reg(next, 7, 0xca) && Reg(next, 0, 0x62)
  {
    hide Leads, Reg, Out;
    assert Reg(next, 10, 0x32) by {
      Lands(st, scratch, 0, next, 4, 3, 0x52, 5, 2, 0x65, 6, 5, 12, 10, 0x32);
    }
    assert Reg(next, 8, 0xd9) by {
      Lands(st, scratch, 0, next, 5, 4, 0x65, 6, 5, 0xb3, 11, 3, 6, 8, 0xd9);
    }
    assert Reg(next, 7, 0xca) by {
      Lands(st, scratch, 0, next, 6, 5, 0xb3, 11, 3, 0x94, 9, 4, 9, 7, 0xca);
    }
    assert Reg(next, 0, 0x62) by {
      Lands(st, scratch, 0, next, 7, 6, 0x94, 9, 4, 0xc5, 12, 5, 11, 0, 0x62);
    }
  }

  lemma Land0c(st: State, scratch: Registers, next: State)
    requires Leads(st, scratch, 0, next)
    requires Out(st, 7, 0xc5) && Out(st, 8, 0x2d) && Out(st, 9, 0xf6) && Out(st, 10, 0x37) && Out(st, 11, 0x00)
    ensures Reg(next, 11, 0x96) && Reg(next, 2, 0xfb) && Reg(next, 12, 0x1b) && Reg(next, 4, 0x80)
  {
    hide Leads, Reg, Out;
    assert Reg(next, 11, 0x96) by {
      Lands(st, scratch, 0, next, 8, 7, 0xc5, 12, 5, 0x2d, 2, 13, 7, 11, 0x96);
    }
    assert Reg(next, 2, 0xfb) by {
      Lands(st, scratch, 0, next, 9, 8, 0x2d, 2, 13, 0xf6, 15, 6, 15, 2, 0xfb);
    }
    assert Reg(next, 12, 0x1b) by {
      Lands(st, scratch, 0, next, 10, 9, 0xf6, 15, 6, 0x37, 3, 7, 0, 12, 0x1b);
    }
    assert Reg(next, 4, 0x80) by {
      Lands(st, scratch, 0, next, 11, 10, 0x37, 3, 7, 0x00, 0, 0, 3, 4, 0x80);
    }
  }

  lemma Land0d(st: State, scratch: Registers, next: State)
    requires Leads(st, scratch, 0, next)
    requires Out(st, 11, 0x00) && Out(st, 12, 0x7b) && Out(st, 13, 0xd5) && Out(st, 14, 0xae) && Out(st, 15, 0xd9)
    ensures Reg(next, 1, 0x3d) && Reg(next, 5, 0xea) && Reg(next, 13, 0xd7) && Reg(next, 14, 0x6c)
  {
    hide Leads, Reg, Out;
    assert Reg(next, 1, 0x3d) by {
      Lands(st, scratch, 0, next, 12, 11, 0x00, 0, 0, 0x7b, 7, 11, 1, 1, 0x3d);
    }
    assert Reg(next, 5, 0xea) by {
      Lands(st, scratch, 0, next, 13, 12, 0x7b, 7, 11, 0xd5, 13, 5, 10, 5, 0xea);
    }
    assert Reg(next, 13, 0xd7) by {
      Lands(st, scratch, 0, next, 14, 13, 0xd5, 13, 5, 0xae, 10, 14, 8, 13, 0xd7);
    }
    assert Reg(next, 14, 0x6c) by {
      Lands(st, scratch, 0, next, 15, 14, 0xae, 10, 14, 0xd9, 13, 9, 4, 14, 0x6c);
    }
  }

  lemma Round0(st: State, scratch: Registers, next: State)
    requires Leads(st, scratch, 0, next) && At(st, 0, 0xa02256c8, 0x25, 0x5a)
    requires Reg(st, 0, 0x71) && Reg(st, 1, 0xdf) && Reg(st, 2, 0x01) && Reg(st, 3, 0xa9)
    requires Reg(st, 4, 0x52) && Reg(st, 5, 0x6d) && Reg(st, 6, 0xfd) && Reg(st, 7, 0xbe)
    requires Reg(st, 8, 0x0a) && Reg(st, 9, 0x44) && Reg(st, 10, 0x68) && Reg(st, 11, 0xca)
    requires Reg(st, 12, 0x33) && Reg(st, 13, 0x54) && Reg(st, 14, 0xbe) && Reg(st, 15, 0x89)
    ensures At(next, 0, 0x3253d404, 0x74, 0xaf)
    ensures Reg(next, 0, 0x62) && Reg(next, 1, 0x3d) && Reg(next, 2, 0xfb) && Reg(next, 3, 0x39)
    ensures Reg(next, 4, 0x80) && Reg(next, 5, 0xea) && Reg(next, 6, 0xa9) && Reg(next, 7, 0xca)
    ensures Reg(next, 8, 0xd9) && Reg(next, 9, 0xb6) && Reg(next, 10, 0x32) && Reg(next, 11, 0x96)
    ensures Reg(next, 12, 0x1b) && Reg(next, 13, 0xd7) && Reg(next, 14, 0x6c) && Reg(next, 15, 0x1f)
  {
    hide Leads, At, Reg, Out;
    Mix0(st);
    Ends(st, scratch, 0, next, 0x3253d404, 0x74, 0xaf);
    Land0a(st, scratch, next);
    Land0b(st, scratch, next);
    Land0c(st, scratch, next);
    Land0d(st, scratch, next);
  }

  // All rounds

  /** From the loaded registers to the mixed ones. */
  lemma Runs(st: State)
    requires At(st, 0, 0xc442f56b, 0x80, 0x80)
    requires Reg(st, 0, 0xc4) && Reg(st, 1, 0x42) && Reg(st, 2, 0xf5) && Reg(st, 3, 0x6b)
    requires Reg(st, 4, 0xe9) && Reg(st, 5, 0xe1) && Reg(st, 6, 0x71) && Reg(st, 7, 0x58)
    requires Reg(st, 8, 0xc7) && Reg(st, 9, 0xe1) && Reg(st, 10, 0x71) && Reg(st, 11, 0x58)
    requires Reg(st, 12, 0xd7) && Reg(st, 13, 0x5a) && Reg(st, 14, 0x96) && Reg(st, 15, 0xec)
    ensures var end := Rounds(st, ZEROS, 8);
            Reg(end, 0, 0x62) && Reg(end, 1, 0x3d) && Reg(end, 2, 0xfb)
            && Reg(end, 13, 0xd7) && Reg(end, 14, 0x6c) && Reg(end, 15, 0x1f)
  {
    var s7, s6, s5, s4, s3, s2, s1, s0 := EightRounds(st);
    hide Leads, At, Reg, Rounds;
    Round7(st, ZEROS, s7);
    Round6(s7, s7.reg, s6);
    Round5(s6, s6.reg, s5);
    Round4(s5, s5.reg, s4);
    Round3(s4, s4.reg, s3);
    Round2(s3, s3.reg, s2);
    Round1(s2, s2.reg, s1);
    Round0(s1, s1.reg, s0);
  }
}
