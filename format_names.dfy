/** The normalisation that the dispatchers apply to a format or file-type name. */
module FormatNames {
  import opened PyStrings

  /** `fmt.lower().lstrip(".")`. */
  function Normalise(fmt: string): string {
    LStripChar(Lower(fmt), '.')
  }

  /** Normalising drops the leading characters that lower to a dot, and leaves no leading dot. */
  lemma NormaliseDropsLeadingDots(fmt: string)
    ensures Normalise(fmt) == [] || Normalise(fmt)[0] != '.'
    ensures forall i :: 0 <= i < |fmt| - |Normalise(fmt)| ==> LowerChar(fmt[i]) == '.'
  {
    LowerSpec(fmt);
    LStripCharSpec(Lower(fmt), '.');
  }

  /** What normalising keeps is the rest of the text, lowered, in place: inner dots included. */
  lemma NormaliseKeepsRest(fmt: string)
    ensures forall i :: 0 <= i < |Normalise(fmt)| ==>
      Normalise(fmt)[i] == LowerChar(fmt[|fmt| - |Normalise(fmt)| + i])
  {
    var l := Lower(fmt);
    var r := Normalise(fmt);
    LowerSpec(fmt);
    LStripCharSpec(l, '.');
    var k := |l| - |r|;
    forall i | 0 <= i < |r|
      ensures r[i] == LowerChar(fmt[k + i])
    {
      assert r[i] == l[k + i];
    }
  }

  /** Normalising is idempotent, ignores case and ignores a leading dot. */
  lemma NormaliseIdempotent(fmt: string)
    ensures Normalise(Normalise(fmt)) == Normalise(fmt)
    ensures Normalise(Lower(fmt)) == Normalise(fmt)
    ensures Normalise("." + fmt) == Normalise(fmt)
  {
    var l := Lower(fmt);
    var r := Normalise(fmt);
    LStripCharSpec(l, '.');
    var k := |l| - |r|;
    LowerSuffix(l, k);
    LowerIdempotent(fmt);
    assert Lower(r) == r;
    assert ("." + fmt)[1..] == fmt;
    assert Lower("." + fmt) == "." + l;
  }

  lemma NormaliseExample()
    ensures Normalise("..PDF") == "pdf"
  {
    assert Lower("..PDF") == "..pdf";
    assert "..pdf"[1..] == ".pdf" && ".pdf"[1..] == "pdf";
  }
}
