/**
 * `BitVector` (src/util.rs): a flag set backed by one `u64`, addressed bit by
 * bit. Bit positions are `u64` values too; `1 << bit` overflows for a bit of
 * 64 or more, so every operation requires `bit < 64`.
 */
module Util {
  datatype BitVector = BitVector(bits: bv64) {
    /** `is_set`: bit `bit` of the backing integer, counted from the least significant, is 1. */
    function IsSet(bit: bv64): (r: bool)
      requires bit < 64
      ensures r ==> bits != 0
      ensures bits == 0xFFFF_FFFF_FFFF_FFFF ==> r
    {
      bits & (1 << bit) != 0
    }

    /** `set`: the vector with bit `bit` turned on (the source updates `self` in place). */
    function Set(bit: bv64): (r: BitVector)
      requires bit < 64
      ensures r.IsSet(bit)
    {
      BitVector(bits | (1 << bit))
    }

    /** `unset`: the vector with bit `bit` turned off (the source updates `self` in place). */
    function Unset(bit: bv64): (r: BitVector)
      requires bit < 64
      ensures !r.IsSet(bit)
    {
      BitVector(bits & !(1 << bit))
    }
  }

  /** `BitVector::new`: no bit is set. */
  function New(): (r: BitVector)
    ensures forall b: bv64 :: b < 64 ==> !r.IsSet(b)
  {
    BitVector(0)
  }

  /** `From<u64>`: wraps the integer unchanged. */
  function From(value: bv64): (r: BitVector)
    ensures r.bits == value
  {
    BitVector(value)
  }

  /** A fresh vector is the vector of the integer 0. */
  lemma NewIsFromZero()
    ensures New() == From(0)
  {
  }

  /** `From<u64>` round-trips: the vector's backing integer is the value given, and only that value gives it. */
  lemma FromRoundTrip(value: bv64, v: BitVector)
    ensures From(value).bits == value
    ensures From(v.bits) == v
    ensures From(value) == v <==> v.bits == value
  {
  }

  lemma SetOtherBit(v: BitVector, bit: bv64, other: bv64)
    requires bit < 64 && other < 64 && other != bit
    ensures v.Set(bit).IsSet(other) == v.IsSet(other)
  {
  }

  lemma UnsetOtherBit(v: BitVector, bit: bv64, other: bv64)
    requires bit < 64 && other < 64 && other != bit
    ensures v.Unset(bit).IsSet(other) == v.IsSet(other)
  {
  }

  /** `set` turns its bit on and leaves every other bit as it was. */
  lemma SetFrame(v: BitVector, bit: bv64)
    requires bit < 64
    ensures v.Set(bit).IsSet(bit)
    ensures forall j: bv64 :: j < 64 && j != bit ==> v.Set(bit).IsSet(j) == v.IsSet(j)
  {
    forall j: bv64 | j < 64 && j != bit
      ensures v.Set(bit).IsSet(j) == v.IsSet(j)
    {
      SetOtherBit(v, bit, j);
    }
  }

  /** `unset` turns its bit off and leaves every other bit as it was. */
  lemma UnsetFrame(v: BitVector, bit: bv64)
    requires bit < 64
    ensures !v.Unset(bit).IsSet(bit)
    ensures forall j: bv64 :: j < 64 && j != bit ==> v.Unset(bit).IsSet(j) == v.IsSet(j)
  {
    forall j: bv64 | j < 64 && j != bit
      ensures v.Unset(bit).IsSet(j) == v.IsSet(j)
    {
      UnsetOtherBit(v, bit, j);
    }
  }

  /** Setting or clearing a bit twice is the same as doing it once. */
  lemma SetUnsetIdempotent(v: BitVector, bit: bv64)
    requires bit < 64
    ensures v.Set(bit).Set(bit) == v.Set(bit)
    ensures v.Unset(bit).Unset(bit) == v.Unset(bit)
  {
  }

  /** Setting a clear bit and clearing it again restores the vector; likewise the other way round. */
  lemma SetThenUnsetRestores(v: BitVector, bit: bv64)
    requires bit < 64
    ensures !v.IsSet(bit) ==> v.Set(bit).Unset(bit) == v
    ensures v.IsSet(bit) ==> v.Unset(bit).Set(bit) == v
  {
  }

  /**
   * `is_set` reads bit `bit` of the integer the vector was made from: that
   * integer shifted down by `bit` has 1 as its lowest bit. The proof splits
   * on the bit position until it is a constant, where the shifts are plain.
   */
  lemma IsSetReadsBit(value: bv64, bit: bv64)
    requires bit < 64
    ensures From(value).IsSet(bit) <==> (value >> bit) & 1 == 1
  {
    if bit < 32 {
      if bit < 16 {
        if bit < 8 {
          if bit < 4 {
            if bit < 2 {
              if bit < 1 {
                assert bit == 0;
              } else {
                assert bit == 1;
              }
            } else {
              if bit < 3 {
                assert bit == 2;
              } else {
                assert bit == 3;
              }
            }
          } else {
            if bit < 6 {
              if bit < 5 {
                assert bit == 4;
              } else {
                assert bit == 5;
              }
            } else {
              if bit < 7 {
                assert bit == 6;
              } else {
                assert bit == 7;
              }
            }
          }
        } else {
          if bit < 12 {
            if bit < 10 {
              if bit < 9 {
                assert bit == 8;
              } else {
                assert bit == 9;
              }
            } else {
              if bit < 11 {
                assert bit == 10;
              } else {
                assert bit == 11;
              }
            }
          } else {
            if bit < 14 {
              if bit < 13 {
                assert bit == 12;
              } else {
                assert bit == 13;
              }
            } else {
              if bit < 15 {
                assert bit == 14;
              } else {
                assert bit == 15;
              }
            }
          }
        }
      } else {
        if bit < 24 {
          if bit < 20 {
            if bit < 18 {
              if bit < 17 {
                assert bit == 16;
              } else {
                assert bit == 17;
              }
            } else {
              if bit < 19 {
                assert bit == 18;
              } else {
                assert bit == 19;
              }
            }
          } else {
            if bit < 22 {
              if bit < 21 {
                assert bit == 20;
              } else {
                assert bit == 21;
              }
            } else {
              if bit < 23 {
                assert bit == 22;
              } else {
                assert bit == 23;
              }
            }
          }
        } else {
          if bit < 28 {
            if bit < 26 {
              if bit < 25 {
                assert bit == 24;
              } else {
                assert bit == 25;
              }
            } else {
              if bit < 27 {
                assert bit == 26;
              } else {
                assert bit == 27;
              }
            }
          } else {
            if bit < 30 {
              if bit < 29 {
                assert bit == 28;
              } else {
                assert bit == 29;
              }
            } else {
              if bit < 31 {
                assert bit == 30;
              } else {
                assert bit == 31;
              }
            }
          }
        }
      }
    } else {
      if bit < 48 {
        if bit < 40 {
          if bit < 36 {
            if bit < 34 {
              if bit < 33 {
                assert bit == 32;
              } else {
                assert bit == 33;
              }
            } else {
              if bit < 35 {
                assert bit == 34;
              } else {
                assert bit == 35;
              }
            }
          } else {
            if bit < 38 {
              if bit < 37 {
                assert bit == 36;
              } else {
                assert bit == 37;
              }
            } else {
              if bit < 39 {
                assert bit == 38;
              } else {
                assert bit == 39;
              }
            }
          }
        } else {
          if bit < 44 {
            if bit < 42 {
              if bit < 41 {
                assert bit == 40;
              } else {
                assert bit == 41;
              }
            } else {
              if bit < 43 {
                assert bit == 42;
              } else {
                assert bit == 43;
              }
            }
          } else {
            if bit < 46 {
              if bit < 45 {
                assert bit == 44;
              } else {
                assert bit == 45;
              }
            } else {
              if bit < 47 {
                assert bit == 46;
              } else {
                assert bit == 47;
              }
            }
          }
        }
      } else {
        if bit < 56 {
          if bit < 52 {
            if bit < 50 {
              if bit < 49 {
                assert bit == 48;
              } else {
                assert bit == 49;
              }
            } else {
              if bit < 51 {
                assert bit == 50;
              } else {
                assert bit == 51;
              }
            }
          } else {
            if bit < 54 {
              if bit < 53 {
                assert bit == 52;
              } else {
                assert bit == 53;
              }
            } else {
              if bit < 55 {
                assert bit == 54;
              } else {
                assert bit == 55;
              }
            }
          }
        } else {
          if bit < 60 {
            if bit < 58 {
              if bit < 57 {
                assert bit == 56;
              } else {
                assert bit == 57;
              }
            } else {
              if bit < 59 {
                assert bit == 58;
              } else {
                assert bit == 59;
              }
            }
          } else {
            if bit < 62 {
              if bit < 61 {
                assert bit == 60;
              } else {
                assert bit == 61;
              }
            } else {
              if bit < 63 {
                assert bit == 62;
              } else {
                assert bit == 63;
              }
            }
          }
        }
      }
    }
  }

  /** Unit test `check_set_bits`: 0b1101 has bits 0, 2 and 3 set and bit 1 clear. */
  lemma CheckSetBits()
    ensures From(0xD).IsSet(0) && !From(0xD).IsSet(1) && From(0xD).IsSet(2) && From(0xD).IsSet(3)
  {
  }

  /** Unit test `set_bits`: 0 has bits 0 to 2 clear; setting bit 1 leaves bits 0 and 2 clear. */
  lemma SetBitsExample()
    ensures !From(0).IsSet(0) && !From(0).IsSet(1) && !From(0).IsSet(2)
    ensures From(0).Set(1) == From(0x2)
    ensures !From(0).Set(1).IsSet(0) && From(0).Set(1).IsSet(1) && !From(0).Set(1).IsSet(2)
  {
  }

  /** Unit test `unset_bits`: 0b110 has bit 0 clear and bits 1 and 2 set; clearing bit 1 leaves bit 2 set. */
  lemma UnsetBitsExample()
    ensures !From(0x6).IsSet(0) && From(0x6).IsSet(1) && From(0x6).IsSet(2)
    ensures From(0x6).Unset(1) == From(0x4)
    ensures !From(0x6).Unset(1).IsSet(0) && !From(0x6).Unset(1).IsSet(1) && From(0x6).Unset(1).IsSet(2)
  {
  }
}
