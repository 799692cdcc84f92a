/** Output script templates and their relay dust thresholds. */
module Scripts {
  import opened Bytes

  const DUST_RELAY_FEE_SAT_PER_KVB: nat := 3000

  predicate IsP2WPKH(s: Buffer) {
    |s| == 22 && s[0] == 0x00 && s[1] == 0x14
  }

  predicate IsP2TR(s: Buffer) {
    |s| == 34 && s[0] == 0x51 && s[1] == 0x20
  }

  predicate IsOpReturn(s: Buffer) {
    |s| > 0 && s[0] == 0x6a
  }

  /** A version opcode followed by one push of 2 to 40 bytes. */
  predicate IsWitnessProgram(s: Buffer) {
    && |s| >= 4
    && (s[0] == 0x00 || 0x51 <= s[0] <= 0x60)
    && 2 <= s[1] <= 40 && |s| == 2 + s[1]
  }

  /** OP_RETURN outputs are unspendable and have none. */
  function DustThreshold(s: Buffer): nat {
    if IsOpReturn(s) then 0
    else (8 + 1 + |s| + (if IsWitnessProgram(s) then 67 else 148)) * DUST_RELAY_FEE_SAT_PER_KVB / 1000
  }

  /** The relay dust of the standard scripts: 294 sats for P2WPKH, 330 for P2TR and P2WSH, 546 for
      P2PKH, 540 for P2SH, and none for an OP_RETURN. */
  lemma DustOfTemplates(s: Buffer)
    ensures IsP2WPKH(s) <==> |s| == 22 && s[..2] == [0x00, 0x14]
    ensures IsP2TR(s) <==> |s| == 34 && s[..2] == [0x51, 0x20]
    ensures IsP2WPKH(s) ==> DustThreshold(s) == 294
    ensures IsP2TR(s) || (|s| == 34 && s[..2] == [0x00, 0x20]) ==> DustThreshold(s) == 330
    ensures |s| == 25 && s[..3] == [0x76, 0xa9, 0x14] ==> DustThreshold(s) == 546
    ensures |s| == 23 && s[..2] == [0xa9, 0x14] ==> DustThreshold(s) == 540
    ensures |s| > 0 && s[0] == 0x6a ==> DustThreshold(s) == 0
  {
  }
}
