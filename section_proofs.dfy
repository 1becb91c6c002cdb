/** The section table numbers its rows consecutively from 1. */
module SectionProofs {
  import opened SectionTable

  /** Row `i` holds section `i + 1`: the sections are numbered 1 to 40 without gaps. */
  lemma SectionRowNumbered()
    ensures forall i | 0 <= i < 40 :: SectionRow(i).0 == i + 1
  {
  }
}
