/** The status characters the screens print: the power-stage mode letter, the
    balancer's mode character and cell-state field, and the two-letter program
    abbreviation. */
module Status {
  import opened MachineInts

  // ---------------------------------------------------------------- mode letters

  /** The mode letter of printChar_Time. The inner test for a running SMPS
      inside the discharger branch repeats a test that already failed, so its
      'E' is never produced. */
  function TimeModeChar(smpsOn: bool, dischargerOn: bool, balancerWorking: bool): (c: char)
    ensures c != 'E'
    ensures c == 'C' <==> smpsOn
    ensures c == 'D' <==> !smpsOn && dischargerOn
    ensures c == 'B' <==> !smpsOn && !dischargerOn && balancerWorking
    ensures c == 'N' <==> !smpsOn && !dischargerOn && !balancerWorking
  {
    if smpsOn then 'C'
    else if dischargerOn then (if smpsOn then 'E' else 'D')
    else if balancerWorking then 'B'
    else 'N'
  }

  /** The leading character of displayBalanceInfo. */
  function BalanceModeChar(working: bool, stable: bool, savedVon: bool): (c: char)
    ensures c == 'B' <==> working && savedVon
    ensures c == 'b' <==> working && !savedVon
    ensures c == 'm' <==> !working && !stable
    ensures c == ' ' <==> !working && stable
  {
    if !working then (if !stable then 'm' else ' ')
    else if savedVon then 'B' else 'b'
  }

  // ---------------------------------------------------------------- balance field

  /** Bit `i` of the balancer's output mask: cell `i` is being discharged. */
  predicate CellBalancing(balance: bv8, i: nat)
    requires i < 8
  {
    (balance >> i) & 1 == 1
  }

  /** The character for cell `i`: '_' for the lowest cell, else its mask bit. */
  function CellStateChar(balance: bv8, minCell: uint8, i: nat): char
    requires i < 6
  {
    if i == minCell then '_' else if CellBalancing(balance, i) then '1' else '0'
  }

  /** The seven characters that follow the mode character on the balance screens. */
  function BalanceFieldSpec(balance: bv8, minCell: uint8): (f: string)
    ensures |f| == 7
  {
    if balance == 0 then "       "
    else seq(6, i requires 0 <= i < 6 => CellStateChar(balance, minCell, i)) + " "
  }

  /** The loop of displayBalanceInfo: one character per cell for cells 0..5,
      walking the mask `j` from bit 0 upward, then a space; seven spaces when no
      cell is balancing. */
  method BalanceField(balance: bv8, minCell: uint8) returns (field: string)
    ensures field == BalanceFieldSpec(balance, minCell)
  {
    if balance != 0 {
      field := [];
      var j: bv8 := 1;
      var i: nat := 0;
      while i < 6
        invariant i <= 6
        invariant j == 1 << i
        invariant |field| == i
        invariant forall k :: 0 <= k < i ==> field[k] == CellStateChar(balance, minCell, k)
      {
        var c: char;
        if i == minCell {
          c := '_';
        } else if balance & j != 0 {
          c := '1';
        } else {
          c := '0';
        }
        assert c == CellStateChar(balance, minCell, i);
        field := field + [c];
        j := j << 1;
        i := i + 1;
      }
      field := field + [' '];
    } else {
      field := "       ";
    }
  }

  /** The field is blank exactly when no cell is balancing. */
  lemma BalanceFieldBlankIffIdle(balance: bv8, minCell: uint8)
    ensures BalanceFieldSpec(balance, minCell) == "       " <==> balance == 0
  {
    if balance != 0 {
      assert BalanceFieldSpec(balance, minCell)[0] != ' ';
    }
  }

  /** Position by position, for a mask with some bit set. */
  lemma BalanceFieldAt(balance: bv8, minCell: uint8, i: nat)
    requires balance != 0 && i < 6
    ensures BalanceFieldSpec(balance, minCell)[i] == '_' <==> i == minCell
    ensures BalanceFieldSpec(balance, minCell)[i] == '1' <==> i != minCell && CellBalancing(balance, i)
    ensures BalanceFieldSpec(balance, minCell)[i] == '0' <==> i != minCell && !CellBalancing(balance, i)
    ensures BalanceFieldSpec(balance, minCell)[6] == ' '
  {
  }

  /** Bits 6 and 7 of the mask only take part in the test for zero. */
  lemma BalanceFieldIgnoresHighBits(a: bv8, b: bv8, minCell: uint8)
    requires a != 0 && b != 0
    requires a & 0x3F == b & 0x3F
    ensures BalanceFieldSpec(a, minCell) == BalanceFieldSpec(b, minCell)
  {
    forall i | 0 <= i < 6
      ensures CellBalancing(a, i) == CellBalancing(b, i)
    {
      LowBitsAgree(a, b, i);
    }
  }

  lemma LowBitsAgree(a: bv8, b: bv8, i: nat)
    requires a & 0x3F == b & 0x3F && i < 6
    ensures (a >> i) & 1 == (b >> i) & 1
  {
    if i == 0 { assert (a >> 0) & 1 == a & 0x3F & 1; }
    else if i == 1 { assert (a >> 1) & 1 == ((a & 0x3F) >> 1) & 1; }
    else if i == 2 { assert (a >> 2) & 1 == ((a & 0x3F) >> 2) & 1; }
    else if i == 3 { assert (a >> 3) & 1 == ((a & 0x3F) >> 3) & 1; }
    else if i == 4 { assert (a >> 4) & 1 == ((a & 0x3F) >> 4) & 1; }
    else { assert (a >> 5) & 1 == ((a & 0x3F) >> 5) & 1; }
  }

  /** An underscore marks the lowest cell exactly when some cell balances and the lowest cell is one of 0..5. */
  lemma BalanceFieldMarksMinCell(balance: bv8, minCell: uint8)
    ensures '_' in BalanceFieldSpec(balance, minCell) <==> balance != 0 && minCell < 6
  {
    var f := BalanceFieldSpec(balance, minCell);
    if balance != 0 && minCell < 6 {
      assert f[minCell] == '_';
    }
  }

  // ---------------------------------------------------------------- program abbreviation

  /** programString: two letters for each of the fourteen program types. */
  const ProgramString: string := "ChCBBlDiFCStSBChDiCyChDiEBLP"
  const ProgramCount: nat := 14

  /** printProgram2chars: the two characters at `prog * 2`. The source does not
      check the index; reading past the table needs a program type outside 0..13. */
  function ProgramAbbrev(prog: nat): (r: string)
    requires prog < ProgramCount
    ensures |r| == 2
    ensures IsLetter(r[0]) && IsLetter(r[1])
  {
    TableIsLetters();
    ProgramString[prog * 2..prog * 2 + 2]
  }

  predicate IsLetter(c: char) {
    'A' <= c <= 'Z' || 'a' <= c <= 'z'
  }

  lemma TableIsLetters()
    ensures forall k :: 0 <= k < |ProgramString| ==> IsLetter(ProgramString[k])
  {
    var s := ProgramString;
    assert s == ['C','h','C','B','B','l','D','i','F','C','S','t','S','B','C','h','D','i','C','y','C','h','D','i','E','B','L','P'];
  }

  /** The abbreviations of programs 0..n-1, in order. */
  function Abbreviations(n: nat): string
    requires n <= ProgramCount
  {
    if n == 0 then [] else Abbreviations(n - 1) + ProgramAbbrev(n - 1)
  }

  /** The fourteen abbreviations tile the table exactly: no character is skipped or shared. */
  lemma {:induction false} AbbreviationsTileTable(n: nat)
    requires n <= ProgramCount
    ensures Abbreviations(n) == ProgramString[..2 * n]
  {
    if n > 0 {
      AbbreviationsTileTable(n - 1);
      PrefixSplit(ProgramString, 2 * (n - 1), 2 * n);
    }
  }

  lemma PrefixSplit(s: string, a: nat, b: nat)
    requires a <= b <= |s|
    ensures s[..b] == s[..a] + s[a..b]
  {
  }

  lemma AbbreviationsCoverTable()
    ensures Abbreviations(ProgramCount) == ProgramString
  {
    AbbreviationsTileTable(ProgramCount);
    assert ProgramString[..2 * ProgramCount] == ProgramString;
  }
}
