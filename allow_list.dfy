/** The fixed table of card identifiers allowed to operate the gate (Core/main.c). */
module AllowList {
  import opened Common

  /** `VALID_UIDS`: the four authorised cards, in table order. */
  const VALID_UIDS: seq<Uid> := [
    [0xD3, 0xA7, 0xB1, 0x28],
    [0x23, 0xB8, 0x16, 0x2D],
    [0x93, 0x71, 0x8D, 0x0C],
    [0x23, 0xA2, 0x5C, 0xFA]
  ]

  /** A card may operate the gate exactly when its UID is one of the table rows. */
  predicate Authorized(uid: Uid) {
    uid in VALID_UIDS
  }

  /**
   * `is_card_authorized`: scans the table row by row and answers as soon as
   * a row is byte-for-byte equal to `uid`.
   */
  method IsCardAuthorized(uid: Uid) returns (ok: bool)
    ensures ok <==> exists i :: 0 <= i < |VALID_UIDS| && VALID_UIDS[i] == uid
    ensures ok == Authorized(uid)
  {
    var i := 0;
    while i < |VALID_UIDS|
      invariant 0 <= i <= |VALID_UIDS|
      invariant forall j :: 0 <= j < i ==> VALID_UIDS[j] != uid
    {
      if VALID_UIDS[i] == uid {
        return true;
      }
      i := i + 1;
    }
    return false;
  }

  /** The table has four rows and no two of them are the same card. */
  lemma ValidUidsDistinct()
    ensures |VALID_UIDS| == 4
    ensures forall i, j :: 0 <= i < j < |VALID_UIDS| ==> VALID_UIDS[i] != VALID_UIDS[j]
  {
    forall i, j | 0 <= i < j < |VALID_UIDS|
      ensures VALID_UIDS[i] != VALID_UIDS[j]
    {
      assert VALID_UIDS[i][0] != VALID_UIDS[j][0] || VALID_UIDS[i][1] != VALID_UIDS[j][1];
    }
  }

  /** An authorised card matches exactly one row of the table. */
  lemma AuthorizedRowUnique(uid: Uid)
    requires Authorized(uid)
    ensures exists i ::
      && 0 <= i < |VALID_UIDS| && VALID_UIDS[i] == uid
      && forall j :: 0 <= j < |VALID_UIDS| && VALID_UIDS[j] == uid ==> j == i
  {
    var i :| 0 <= i < |VALID_UIDS| && VALID_UIDS[i] == uid;
    ValidUidsDistinct();
    assert forall j :: 0 <= j < |VALID_UIDS| && VALID_UIDS[j] == uid ==> j == i;
  }
}
