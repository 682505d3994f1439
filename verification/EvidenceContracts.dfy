/** Vocabulary shared by the coverage builder and the guard. */
module EvidenceContracts {
  datatype Level = NoVerification | Asserted | Verified

  datatype Status = Present | Missing | Stale | Conflicted | Unverified

  function Rank(l: Level): nat {
    match l case NoVerification => 0 case Asserted => 1 case Verified => 2
  }
}
