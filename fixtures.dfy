/**
 * The unit tests of src/lib.rs (`vanilla_top`, `vanilla_side`, `sodium_top`
 * and `sodium_side`), stated as lemmas about the model.  Each proof first
 * fixes the coordinate hash of every cell involved and, for the sodium
 * family, the mixed value derived from it; the classifier results follow.
 */
module TextureFixtures {
  import opened Texture

  // `vanilla_top` (lib.rs:119-130): legacy top rotations around the origin.

  lemma VanillaTop1()
    ensures GetTextureTop(-1, 0, -1) == 0
  {
    assert Combine(-1, 0, -1) == 0x6C4_3DFA;
    assert Quadratic(0x6C4_3DFA) == 0x36B8_5647_85B5_06F2;
    assert GetCoordinateRandom(-1, 0, -1) == 0x36B8_5647_85B5;
    assert LegacyStep(0x36BD_88AB_63D8) == 0x14C0_E0CD_A560_4A52;
  }

  lemma VanillaTop2()
    ensures GetTextureTop(0, 0, -1) == 1
  {
    assert Combine(0, 0, -1) == 0xFFFF_FFFF_F914_000B;
    assert Quadratic(0xFFFF_FFFF_F914_000B) == 0xED1C_26DF_22A8_09F6;
    assert GetCoordinateRandom(0, 0, -1) == 0xFFFF_ED1C_26DF_22A8;
    assert LegacyStep(0xED19_F833_C4C5) == 0xD1A_3CFD_B4F9_4D87;
  }

  lemma VanillaTop3()
    ensures GetTextureTop(1, 0, -1) == 0
  {
    assert Combine(1, 0, -1) == 0xFFFF_FFFF_F93B_C204;
    assert Quadratic(0xFFFF_FFFF_F93B_C204) == 0x36FC_9B7F_B219_287C;
    assert GetCoordinateRandom(1, 0, -1) == 0x36FC_9B7F_B219;
    assert LegacyStep(0x36F9_4593_5474) == 0x35BD_4257_1A68_124E;
  }

  lemma VanillaTop4()
    ensures GetTextureTop(-2, 0, 0) == 2
  {
    assert Combine(-2, 0, 0) == 0xFFFF_FFFF_FFA0_7BE2;
    assert Quadratic(0xFFFF_FFFF_FFA0_7BE2) == 0xE421_457D_111D_64CA;
    assert GetCoordinateRandom(-2, 0, 0) == 0xFFFF_E421_457D_111D;
    assert LegacyStep(0xE424_9B91_F770) == 0x6661_B80F_A0B6_C3AA;
  }

  lemma VanillaTop5()
    ensures GetTextureTop(-1, 0, 0) == 0
  {
    assert Combine(-1, 0, 0) == 0xFFFF_FFFF_FFD0_3DF1;
    assert Quadratic(0xFFFF_FFFF_FFD0_3DF1) == 0x7908_515F_4340_ADE0;
    assert GetCoordinateRandom(-1, 0, 0) == 0x7908_515F_4340;
    assert LegacyStep(0x790D_8FB3_A52D) == 0x2328_E68F_1E30_682F;
  }

  lemma VanillaTop6()
    ensures GetTextureTop(0, 0, 0) == 0
  {
    assert Combine(0, 0, 0) == 0x0;
    assert Quadratic(0x0) == 0x0;
    assert GetCoordinateRandom(0, 0, 0) == 0x0;
    assert LegacyStep(0x5_DEEC_E66D) == 0xCE0_D4D9_5138_AB6F;
  }

  lemma VanillaTop7()
    ensures GetTextureTop(1, 0, 0) == 1
  {
    assert Combine(1, 0, 0) == 0x2F_C20F;
    assert Quadratic(0x2F_C20F) == 0x7908_515F_475B_5B2A;
    assert GetCoordinateRandom(1, 0, 0) == 0x7908_515F_475B;
    assert LegacyStep(0x790D_8FB3_A136) == 0x2042_F7E3_F567_21E0;
  }

  lemma VanillaTop8()
    ensures GetTextureTop(-1, 0, 1) == 0
  {
    assert Combine(-1, 0, 1) == 0xFFFF_FFFF_F93B_C204;
    assert Quadratic(0xFFFF_FFFF_F93B_C204) == 0x36FC_9B7F_B219_287C;
    assert GetCoordinateRandom(-1, 0, 1) == 0x36FC_9B7F_B219;
    assert LegacyStep(0x36F9_4593_5474) == 0x35BD_4257_1A68_124E;
  }

  lemma VanillaTop9()
    ensures GetTextureTop(0, 0, 1) == 3
  {
    assert Combine(0, 0, 1) == 0x6EB_FFF5;
    assert Quadratic(0x6EB_FFF5) == 0xED1C_26DF_BAF0_0904;
    assert GetCoordinateRandom(0, 0, 1) == 0xFFFF_ED1C_26DF_BAF0;
    assert LegacyStep(0xED19_F833_5C9D) == 0xC0F7_B69A_81BD_051F;
  }

  lemma VanillaTop10()
    ensures GetTextureTop(1, 0, 1) == 0
  {
    assert Combine(1, 0, 1) == 0x6C4_3DFA;
    assert Quadratic(0x6C4_3DFA) == 0x36B8_5647_85B5_06F2;
    assert GetCoordinateRandom(1, 0, 1) == 0x36B8_5647_85B5;
    assert LegacyStep(0x36BD_88AB_63D8) == 0x14C0_E0CD_A560_4A52;
  }

  // `vanilla_side` (lib.rs:133-149): legacy side rotations along the x axis.

  lemma VanillaSide1()
    ensures GetTextureSide(-6, 0, 0) == 1
  {
    assert Combine(-6, 0, 0) == 0xFFFF_FFFF_FEE1_73A6;
    assert Quadratic(0xFFFF_FFFF_FEE1_73A6) == 0x52B_7165_B2A8_9AD6;
    assert GetCoordinateRandom(-6, 0, 0) == 0x52B_7165_B2A8;
    assert LegacyStep(0x52E_AF89_54C5) == 0x73A_D5FC_3EB1_5D87;
  }

  lemma VanillaSide2()
    ensures GetTextureSide(-5, 0, 0) == 0
  {
    assert Combine(-5, 0, 0) == 0xFFFF_FFFF_FF11_35B5;
    assert Quadratic(0xFFFF_FFFF_FF11_35B5) == 0xD1CF_F24D_BA5B_BFC4;
    assert GetCoordinateRandom(-5, 0, 0) == 0xFFFF_D1CF_F24D_BA5B;
    assert LegacyStep(0xD1CA_2CA1_5C36) == 0x4E41_1C03_BC36_D4E0;
  }

  lemma VanillaSide3()
    ensures GetTextureSide(-4, 0, 0) == 1
  {
    assert Combine(-4, 0, 0) == 0xFFFF_FFFF_FF40_F7C4;
    assert Quadratic(0xFFFF_FFFF_FF40_F7C4) == 0x9085_15F4_4CAA_EDBC;
    assert GetCoordinateRandom(-4, 0, 0) == 0xFFFF_9085_15F4_4CAA;
    assert LegacyStep(0x9080_CB18_AAC7) == 0x2CCE_8436_CE97_B859;
  }

  lemma VanillaSide4()
    ensures GetTextureSide(-3, 0, 0) == 1
  {
    assert Combine(-3, 0, 0) == 0xFFFF_FFFF_FF70_B9D3;
    assert Quadratic(0xFFFF_FFFF_FF70_B9D3) == 0x414A_DC59_6996_24BE;
    assert GetCoordinateRandom(-3, 0, 0) == 0x414A_DC59_6996;
    assert LegacyStep(0x414F_02B5_8FFB) == 0x50E_E576_4265_C2AD;
  }

  lemma VanillaSide5()
    ensures GetTextureSide(-2, 0, 0) == 0
  {
    assert Combine(-2, 0, 0) == 0xFFFF_FFFF_FFA0_7BE2;
    assert Quadratic(0xFFFF_FFFF_FFA0_7BE2) == 0xE421_457D_111D_64CA;
    assert GetCoordinateRandom(-2, 0, 0) == 0xFFFF_E421_457D_111D;
    assert LegacyStep(0xE424_9B91_F770) == 0x6661_B80F_A0B6_C3AA;
  }

  lemma VanillaSide6()
    ensures GetTextureSide(-1, 0, 0) == 0
  {
    assert Combine(-1, 0, 0) == 0xFFFF_FFFF_FFD0_3DF1;
    assert Quadratic(0xFFFF_FFFF_FFD0_3DF1) == 0x7908_515F_4340_ADE0;
    assert GetCoordinateRandom(-1, 0, 0) == 0x7908_515F_4340;
    assert LegacyStep(0x790D_8FB3_A52D) == 0x2328_E68F_1E30_682F;
  }

  lemma VanillaSide7()
    ensures GetTextureSide(0, 0, 0) == 0
  {
    assert Combine(0, 0, 0) == 0x0;
    assert Quadratic(0x0) == 0x0;
    assert GetCoordinateRandom(0, 0, 0) == 0x0;
    assert LegacyStep(0x5_DEEC_E66D) == 0xCE0_D4D9_5138_AB6F;
  }

  lemma VanillaSide8()
    ensures GetTextureSide(1, 0, 0) == 1
  {
    assert Combine(1, 0, 0) == 0x2F_C20F;
    assert Quadratic(0x2F_C20F) == 0x7908_515F_475B_5B2A;
    assert GetCoordinateRandom(1, 0, 0) == 0x7908_515F_475B;
    assert LegacyStep(0x790D_8FB3_A136) == 0x2042_F7E3_F567_21E0;
  }

  lemma VanillaSide9()
    ensures GetTextureSide(2, 0, 0) == 0
  {
    assert Combine(2, 0, 0) == 0x5F_841E;
    assert Quadratic(0x5F_841E) == 0xE421_457D_1952_BF5E;
    assert GetCoordinateRandom(2, 0, 0) == 0xFFFF_E421_457D_1952;
    assert LegacyStep(0xE424_9B91_FF3F) == 0x6C16_EC70_1AA8_0D91;
  }

  lemma VanillaSide10()
    ensures GetTextureSide(3, 0, 0) == 0
  {
    assert Combine(3, 0, 0) == 0x8F_462D;
    assert Quadratic(0x8F_462D) == 0x414A_DC59_75E6_2C9C;
    assert GetCoordinateRandom(3, 0, 0) == 0x414A_DC59_75E6;
    assert LegacyStep(0x414F_02B5_938B) == 0x7A9_89F8_D88A_D8BD;
  }

  lemma VanillaSide11()
    ensures GetTextureSide(4, 0, 0) == 1
  {
    assert Combine(4, 0, 0) == 0xBF_083C;
    assert Quadratic(0xBF_083C) == 0x9085_15F4_5D15_A2E4;
    assert GetCoordinateRandom(4, 0, 0) == 0xFFFF_9085_15F4_5D15;
    assert LegacyStep(0x9080_CB18_BB78) == 0x3901_F119_85A5_7AF2;
  }

  lemma VanillaSide12()
    ensures GetTextureSide(5, 0, 0) == 1
  {
    assert Combine(5, 0, 0) == 0xEE_CA4B;
    assert Quadratic(0xEE_CA4B) == 0xD1CF_F24D_CEE1_2236;
    assert GetCoordinateRandom(5, 0, 0) == 0xFFFF_D1CF_F24D_CEE1;
    assert LegacyStep(0xD1CA_2CA1_288C) == 0x287D_545C_D25D_0026;
  }

  lemma VanillaSide13()
    ensures GetTextureSide(6, 0, 0) == 0
  {
    assert Combine(6, 0, 0) == 0x11E_8C5A;
    assert Quadratic(0x11E_8C5A) == 0x52B_7165_CB48_AA92;
    assert GetCoordinateRandom(6, 0, 0) == 0x52B_7165_CB48;
    assert LegacyStep(0x52E_AF89_2D25) == 0xEA43_E610_E114_DCE7;
  }

  lemma VanillaSide14()
    ensures GetTextureSide(7, 0, 0) == 1
  {
    assert Combine(7, 0, 0) == 0x14E_4E69;
    assert Quadratic(0x14E_4E69) == 0x2A97_933C_524C_3BF8;
    assert GetCoordinateRandom(7, 0, 0) == 0x2A97_933C_524C;
    assert LegacyStep(0x2A92_4DD0_B421) == 0x4F9_B957_6631_1243;
  }

  lemma VanillaSide15()
    ensures GetTextureSide(8, 0, 0) == 0
  {
    assert Combine(8, 0, 0) == 0x17E_1078;
    assert Quadratic(0x17E_1078) == 0x4214_57D1_63EB_D668;
    assert GetCoordinateRandom(8, 0, 0) == 0x4214_57D1_63EB;
    assert LegacyStep(0x4211_893D_8586) == 0x35FC_1482_8FE0_E6B0;
  }

  // `sodium_top` (lib.rs:152-167): sodium top rotations along x at y = -56, z = 0.

  lemma SodiumTop1()
    ensures GetTextureTopSodium(0, -56, 0) == 3
  {
    assert Combine(0, -56, 0) == 0xFFFF_FFFF_FFFF_FFC8;
    assert Quadratic(0xFFFF_FFFF_FFFF_FFC8) == 0x1E_E60F_C2D8;
    assert GetCoordinateRandom(0, -56, 0) == 0x1E_E60F;
    assert SodiumRandom(0x1E_E60F) == 0xF98E_6296_7D1B_F937;
  }

  lemma SodiumTop2()
    ensures GetTextureTopSodium(1, -56, 0) == 3
  {
    assert Combine(1, -56, 0) == 0xFFFF_FFFF_FFD0_3DC7;
    assert Quadratic(0xFFFF_FFFF_FFD0_3DC7) == 0x792F_D840_FB5F_2922;
    assert GetCoordinateRandom(1, -56, 0) == 0x792F_D840_FB5F;
    assert SodiumRandom(0x792F_D840_FB5F) == 0xB7E4_CC6F_81EC_BE79;
  }

  lemma SodiumTop3()
    ensures GetTextureTopSodium(2, -56, 0) == 3
  {
    assert Combine(2, -56, 0) == 0xFFFF_FFFF_FFA0_7BD6;
    assert Quadratic(0xFFFF_FFFF_FFA0_7BD6) == 0xE437_DBAC_64BC_C126;
    assert GetCoordinateRandom(2, -56, 0) == 0xFFFF_E437_DBAC_64BC;
    assert SodiumRandom(0xFFFF_E437_DBAC_64BC) == 0x9E9A_243C_F9F3_FD25;
  }

  lemma SodiumTop4()
    ensures GetTextureTopSodium(3, -56, 0) == 3
  {
    assert Combine(3, -56, 0) == 0xFFFF_FFFF_FF70_B9E5;
    assert Quadratic(0xFFFF_FFFF_FF70_B9E5) == 0x4118_0A75_4FE9_B234;
    assert GetCoordinateRandom(3, -56, 0) == 0x4118_0A75_4FE9;
    assert SodiumRandom(0x4118_0A75_4FE9) == 0xC51A_3FC1_B336_CDA9;
  }

  lemma SodiumTop5()
    ensures GetTextureTopSodium(4, -56, 0) == 1
  {
    assert Combine(4, -56, 0) == 0xFFFF_FFFF_FF40_F7F4;
    assert Quadratic(0xFFFF_FFFF_FF40_F7F4) == 0x8FD0_649B_BCE5_FC4C;
    assert GetCoordinateRandom(4, -56, 0) == 0xFFFF_8FD0_649B_BCE5;
    assert SodiumRandom(0xFFFF_8FD0_649B_BCE5) == 0xDE02_C88B_5E37_9881;
  }

  lemma SodiumTop6()
    ensures GetTextureTopSodium(5, -56, 0) == 3
  {
    assert Combine(5, -56, 0) == 0xFFFF_FFFF_FF11_3583;
    assert Quadratic(0xFFFF_FFFF_FF11_3583) == 0xD2BB_396F_3BC4_6AEE;
    assert GetCoordinateRandom(5, -56, 0) == 0xFFFF_D2BB_396F_3BC4;
    assert SodiumRandom(0xFFFF_D2BB_396F_3BC4) == 0x8E9C_378C_0732_88EF;
  }

  lemma SodiumTop7()
    ensures GetTextureTopSodium(6, -56, 0) == 0
  {
    assert Combine(6, -56, 0) == 0xFFFF_FFFF_FEE1_7392;
    assert Quadratic(0xFFFF_FFFF_FEE1_7392) == 0x59C_604F_2D9F_3C1A;
    assert GetCoordinateRandom(6, -56, 0) == 0x59C_604F_2D9F;
    assert SodiumRandom(0x59C_604F_2D9F) == 0x515E_4DB6_1011_D8B4;
  }

  lemma SodiumTop8()
    ensures GetTextureTopSodium(7, -56, 0) == 2
  {
    assert Combine(7, -56, 0) == 0xFFFF_FFFF_FEB1_B1A1;
    assert Quadratic(0xFFFF_FFFF_FEB1_B1A1) == 0x2A55_B28C_A149_6650;
    assert GetCoordinateRandom(7, -56, 0) == 0x2A55_B28C_A149;
    assert SodiumRandom(0x2A55_B28C_A149) == 0x4A46_CCA1_7E9C_059A;
  }

  lemma SodiumTop9()
    ensures GetTextureTopSodium(8, -56, 0) == 0
  {
    assert Combine(8, -56, 0) == 0xFFFF_FFFF_FE81_EFB0;
    assert Quadratic(0xFFFF_FFFF_FE81_EFB0) == 0x40E7_3027_96C2_E990;
    assert GetCoordinateRandom(8, -56, 0) == 0x40E7_3027_96C2;
    assert SodiumRandom(0x40E7_3027_96C2) == 0xF69_AB33_A9A9_7F84;
  }

  lemma SodiumTop10()
    ensures GetTextureTopSodium(9, -56, 0) == 3
  {
    assert Combine(9, -56, 0) == 0xFFFF_FFFF_FE52_2D4F;
    assert Quadratic(0xFFFF_FFFF_FE52_2D4F) == 0x4D05_7C89_4902_CE6A;
    assert GetCoordinateRandom(9, -56, 0) == 0x4D05_7C89_4902;
    assert SodiumRandom(0x4D05_7C89_4902) == 0x91B5_F862_F284_70C9;
  }

  lemma SodiumTop11()
    ensures GetTextureTopSodium(10, -56, 0) == 1
  {
    assert Combine(10, -56, 0) == 0xFFFF_FFFF_FE22_6B5E;
    assert Quadratic(0xFFFF_FFFF_FE22_6B5E) == 0x47B0_B81D_F332_DE1E;
    assert GetCoordinateRandom(10, -56, 0) == 0x47B0_B81D_F332;
    assert SodiumRandom(0x47B0_B81D_F332) == 0xD2F5_C5BE_8651_15D7;
  }

  lemma SodiumTop12()
    ensures GetTextureTopSodium(11, -56, 0) == 1
  {
    assert Combine(11, -56, 0) == 0xFFFF_FFFF_FDF2_A96D;
    assert Quadratic(0xFFFF_FFFF_FDF2_A96D) == 0x3434_1F10_1F32_46DC;
    assert GetCoordinateRandom(11, -56, 0) == 0x3434_1F10_1F32;
    assert SodiumRandom(0x3434_1F10_1F32) == 0x69F_E19A_92DA_EFEF;
  }

  lemma SodiumTop13()
    ensures GetTextureTopSodium(12, -56, 0) == 3
  {
    assert Combine(12, -56, 0) == 0xFFFF_FFFF_FDC2_E77C;
    assert Quadratic(0xFFFF_FFFF_FDC2_E77C) == 0x128F_B15F_CD01_08A4;
    assert GetCoordinateRandom(12, -56, 0) == 0x128F_B15F_CD01;
    assert SodiumRandom(0x128F_B15F_CD01) == 0xD360_D07D_63B6_C6C3;
  }

  lemma SodiumTop14()
    ensures GetTextureTopSodium(13, -56, 0) == 3
  {
    assert Combine(13, -56, 0) == 0xFFFF_FFFF_FD93_250B;
    assert Quadratic(0xFFFF_FFFF_FD93_250B) == 0xE8E1_70AD_F353_46F6;
    assert GetCoordinateRandom(13, -56, 0) == 0xFFFF_E8E1_70AD_F353;
    assert SodiumRandom(0xFFFF_E8E1_70AD_F353) == 0x7383_93CA_FCB3_F081;
  }

  // `sodium_side` (lib.rs:170-185): sodium side rotations along x at y = -56, z = 1.

  lemma SodiumSide1()
    ensures GetTextureSideSodium(0, -56, 1) == 1
  {
    assert Combine(0, -56, 1) == 0xFFFF_FFFF_F914_003D;
    assert Quadratic(0xFFFF_FFFF_F914_003D) == 0xE64A_382C_1025_946C;
    assert GetCoordinateRandom(0, -56, 1) == 0xFFFF_E64A_382C_1025;
    assert SodiumRandom(0xFFFF_E64A_382C_1025) == 0x2718_BDAA_9AE7_B50F;
  }

  lemma SodiumSide2()
    ensures GetTextureSideSodium(1, -56, 1) == 1
  {
    assert Combine(1, -56, 1) == 0xFFFF_FFFF_F93B_C232;
    assert Quadratic(0xFFFF_FFFF_F93B_C232) == 0x30DA_637A_466F_897A;
    assert GetCoordinateRandom(1, -56, 1) == 0x30DA_637A_466F;
    assert SodiumRandom(0x30DA_637A_466F) == 0x23E1_7C3F_443B_630B;
  }

  lemma SodiumSide3()
    ensures GetTextureSideSodium(2, -56, 1) == 1
  {
    assert Combine(2, -56, 1) == 0xFFFF_FFFF_F94B_8423;
    assert Quadratic(0xFFFF_FFFF_F94B_8423) == 0xBFD1_4281_D9AE_4E8E;
    assert GetCoordinateRandom(2, -56, 1) == 0xFFFF_BFD1_4281_D9AE;
    assert SodiumRandom(0xFFFF_BFD1_4281_D9AE) == 0x79A5_EEF4_B43B_F749;
  }

  lemma SodiumSide4()
    ensures GetTextureSideSodium(3, -56, 1) == 0
  {
    assert Combine(3, -56, 1) == 0xFFFF_FFFF_F99B_4610;
    assert Quadratic(0xFFFF_FFFF_F99B_4610) == 0xA780_0115_AFBB_E7B0;
    assert GetCoordinateRandom(3, -56, 1) == 0xFFFF_A780_0115_AFBB;
    assert SodiumRandom(0xFFFF_A780_0115_AFBB) == 0x19E1_3E1A_6715_2664;
  }

  lemma SodiumSide5()
    ensures GetTextureSideSodium(4, -56, 1) == 0
  {
    assert Combine(4, -56, 1) == 0xFFFF_FFFF_F9AB_0801;
    assert Quadratic(0xFFFF_FFFF_F9AB_0801) == 0xDF26_B840_8D0F_6030;
    assert GetCoordinateRandom(4, -56, 1) == 0xFFFF_DF26_B840_8D0F;
    assert SodiumRandom(0xFFFF_DF26_B840_8D0F) == 0x7B29_1145_6762_F716;
  }

  lemma SodiumSide6()
    ensures GetTextureSideSodium(5, -56, 1) == 0
  {
    assert Combine(5, -56, 1) == 0xFFFF_FFFF_F9FA_CA76;
    assert Quadratic(0xFFFF_FFFF_F9FA_CA76) == 0xD554_D0E7_56D0_8786;
    assert GetCoordinateRandom(5, -56, 1) == 0xFFFF_D554_D0E7_56D0;
    assert SodiumRandom(0xFFFF_D554_D0E7_56D0) == 0x1F3B_7FD2_BEA8_71DC;
  }

  lemma SodiumSide7()
    ensures GetTextureSideSodium(6, -56, 1) == 1
  {
    assert Combine(6, -56, 1) == 0xFFFF_FFFF_F80A_8C67;
    assert Quadratic(0xFFFF_FFFF_F80A_8C67) == 0x6C89_CDD3_5B8C_85C2;
    assert GetCoordinateRandom(6, -56, 1) == 0x6C89_CDD3_5B8C;
    assert SodiumRandom(0x6C89_CDD3_5B8C) == 0x15F5_5E4C_C0E5_D2FB;
  }

  lemma SodiumSide8()
    ensures GetTextureSideSodium(7, -56, 1) == 1
  {
    assert Combine(7, -56, 1) == 0xFFFF_FFFF_F85A_4E54;
    assert Quadratic(0xFFFF_FFFF_F85A_4E54) == 0xDE6D_AFD9_440E_C96C;
    assert GetCoordinateRandom(7, -56, 1) == 0xFFFF_DE6D_AFD9_440E;
    assert SodiumRandom(0xFFFF_DE6D_AFD9_440E) == 0xCE27_3B53_B25F_8205;
  }

  lemma SodiumSide9()
    ensures GetTextureSideSodium(8, -56, 1) == 1
  {
    assert Combine(8, -56, 1) == 0xFFFF_FFFF_F86A_1045;
    assert Quadratic(0xFFFF_FFFF_F86A_1045) == 0x6BB6_CD34_E0DF_7B14;
    assert GetCoordinateRandom(8, -56, 1) == 0x6BB6_CD34_E0DF;
    assert SodiumRandom(0x6BB6_CD34_E0DF) == 0x2EC0_EB75_EEB9_1083;
  }

  lemma SodiumSide10()
    ensures GetTextureSideSodium(9, -56, 1) == 0
  {
    assert Combine(9, -56, 1) == 0xFFFF_FFFF_F8B9_D2BA;
    assert Quadratic(0xFFFF_FFFF_F8B9_D2BA) == 0xE8BD_D8CF_CC38_3E32;
    assert GetCoordinateRandom(9, -56, 1) == 0xFFFF_E8BD_D8CF_CC38;
    assert SodiumRandom(0xFFFF_E8BD_D8CF_CC38) == 0x5A4F_5FA0_0A6F_EE92;
  }

  lemma SodiumSide11()
    ensures GetTextureSideSodium(10, -56, 1) == 1
  {
    assert Combine(10, -56, 1) == 0xFFFF_FFFF_F8C9_94AB;
    assert Quadratic(0xFFFF_FFFF_F8C9_94AB) == 0x1EE1_0938_3271_7596;
    assert GetCoordinateRandom(10, -56, 1) == 0x1EE1_0938_3271;
    assert SodiumRandom(0x1EE1_0938_3271) == 0x77AC_ABEC_DECA_D1F3;
  }

  lemma SodiumSide12()
    ensures GetTextureSideSodium(11, -56, 1) == 1
  {
    assert Combine(11, -56, 1) == 0xFFFF_FFFF_FB19_5698;
    assert Quadratic(0xFFFF_FFFF_FB19_5698) == 0x3101_B33D_2768_63C8;
    assert GetCoordinateRandom(11, -56, 1) == 0x3101_B33D_2768;
    assert SodiumRandom(0x3101_B33D_2768) == 0x155B_E3F1_7FC3_BAEB;
  }

  lemma SodiumSide13()
    ensures GetTextureSideSodium(12, -56, 1) == 1
  {
    assert Combine(12, -56, 1) == 0xFFFF_FFFF_FB29_1889;
    assert Quadratic(0xFFFF_FFFF_FB29_1889) == 0xBBC_40C8_2BB6_4E98;
    assert GetCoordinateRandom(12, -56, 1) == 0xBBC_40C8_2BB6;
    assert SodiumRandom(0xBBC_40C8_2BB6) == 0x5F5A_6C9A_C914_C68B;
  }

  lemma SodiumSide14()
    ensures GetTextureSideSodium(13, -56, 1) == 1
  {
    assert Combine(13, -56, 1) == 0xFFFF_FFFF_FB78_DAFE;
    assert Quadratic(0xFFFF_FFFF_FB78_DAFE) == 0x821C_E0EE_80A6_AD7E;
    assert GetCoordinateRandom(13, -56, 1) == 0xFFFF_821C_E0EE_80A6;
    assert SodiumRandom(0xFFFF_821C_E0EE_80A6) == 0xB4F2_C0AF_A83C_3F9D;
  }
}
