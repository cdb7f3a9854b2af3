/** Authorization codes awaiting exchange and refresh-token rows: the operations of the OAuth
    store as functions on maps, and the two stores that apply them in place. */
module OauthStore {
  import opened Wrappers

  /** Random tokens and UUIDs, numbered in the order they are drawn. */
  type Code = nat
  type TokenHash = nat
  type FamilyId = nat
  type ClientId = string
  type UserId = string

  const AUTH_CODE_CAP: nat := 512

  /** What a token is good for. It never changes along a rotation chain. */
  datatype Grant = Grant(clientId: ClientId, userId: UserId, scope: string, resource: Option<string>)

  datatype AuthCode = AuthCode(grant: Grant, redirectUri: string, codeChallenge: string)

  datatype PendingCode = PendingCode(auth: AuthCode, expiresAt: int)

  datatype RefreshRow = RefreshRow(grant: Grant, familyId: FamilyId, consumed: bool, expiresAt: int)

  datatype RefreshOutcome = Valid(row: RefreshRow) | Replayed(familyId: FamilyId) | Missing

  // ------------------------------------------------------------------------------------
  // Codes
  // ------------------------------------------------------------------------------------

  function Unexpired(codes: map<Code, PendingCode>, now: int): map<Code, PendingCode> {
    map c | c in codes && codes[c].expiresAt > now :: codes[c]
  }

  predicate Full(codes: map<Code, PendingCode>, now: int) {
    |Unexpired(codes, now)| >= AUTH_CODE_CAP
  }

  function WithCode(codes: map<Code, PendingCode>, now: int, code: Code, auth: AuthCode, ttl: int): map<Code, PendingCode> {
    if Full(codes, now) then Unexpired(codes, now)
    else Unexpired(codes, now)[code := PendingCode(auth, now + ttl)]
  }

  function Redeemable(codes: map<Code, PendingCode>, now: int, code: Code): Option<AuthCode> {
    if code in codes && codes[code].expiresAt >= now then Some(codes[code].auth) else None
  }

  // ------------------------------------------------------------------------------------
  // Refresh rows
  // ------------------------------------------------------------------------------------

  type Rows = map<TokenHash, RefreshRow>

  function OutcomeOf(rows: Rows, now: int, hash: TokenHash): RefreshOutcome {
    if hash !in rows || rows[hash].expiresAt < now then Missing
    else if rows[hash].consumed then Replayed(rows[hash].familyId)
    else Valid(rows[hash])
  }

  /** The rows once `hash` has been presented: expired rows go, first uses are marked. */
  function Presented(rows: Rows, now: int, hash: TokenHash): Rows {
    if hash !in rows then rows
    else if rows[hash].expiresAt < now then rows - {hash}
    else rows[hash := rows[hash].(consumed := true)]
  }

  function WithoutFamily(rows: Rows, familyId: FamilyId): Rows {
    map h | h in rows && rows[h].familyId != familyId :: rows[h]
  }

  function WithoutUserClient(rows: Rows, userId: UserId, clientId: ClientId): Rows {
    map h | h in rows && !(rows[h].grant.userId == userId && rows[h].grant.clientId == clientId) :: rows[h]
  }

  function WithoutUser(rows: Rows, userId: UserId): Rows {
    map h | h in rows && rows[h].grant.userId != userId :: rows[h]
  }

  // ------------------------------------------------------------------------------------
  // The stores
  // ------------------------------------------------------------------------------------

  /** The in-memory store of codes, one hold of its mutex per method. */
  class AuthCodeStore {
    var codes: map<Code, PendingCode>

    constructor ()
      ensures codes == map[]
    {
      codes := map[];
    }

    /** Evict what has expired, then insert unless the store is at its cap. */
    method InsertCode(now: int, code: Code, auth: AuthCode, ttl: int) returns (inserted: bool)
      modifies this
      ensures codes == WithCode(old(codes), now, code, auth, ttl)
      ensures inserted <==> |set c | c in old(codes) && old(codes)[c].expiresAt > now| < AUTH_CODE_CAP
      ensures inserted ==> code in codes && codes[code] == PendingCode(auth, now + ttl)
      ensures forall c :: c in codes && c != code ==> c in old(codes) && codes[c] == old(codes)[c] && codes[c].expiresAt > now
      ensures forall c :: c in old(codes) && old(codes)[c].expiresAt > now && c != code ==> c in codes
      ensures |old(codes)| <= AUTH_CODE_CAP ==> |codes| <= AUTH_CODE_CAP
    {
      UnexpiredIsSmaller(codes, now);
      assert Unexpired(codes, now).Keys == set c | c in codes && codes[c].expiresAt > now;
      codes := map c | c in codes && codes[c].expiresAt > now :: codes[c];
      if |codes| >= AUTH_CODE_CAP {
        return false;
      }
      codes := codes[code := PendingCode(auth, now + ttl)];
      return true;
    }

    /** Remove the code whether or not it has expired; hand it out only if it has not. */
    method TakeCode(now: int, code: Code) returns (auth: Option<AuthCode>)
      modifies this
      ensures auth == Redeemable(old(codes), now, code)
      ensures auth.Some? <==> code in old(codes) && old(codes)[code].expiresAt >= now
      ensures codes == old(codes) - {code} && Redeemable(codes, now, code) == None
    {
      auth := None;
      if code in codes {
        var pending := codes[code];
        codes := codes - {code};
        if pending.expiresAt >= now {
          auth := Some(pending.auth);
        }
      }
    }
  }

  lemma {:induction false} UnexpiredIsSmaller(codes: map<Code, PendingCode>, now: int)
    ensures |Unexpired(codes, now)| <= |codes|
  {
    SubsetIsSmaller(Unexpired(codes, now).Keys, codes.Keys);
  }

  lemma {:induction false} SubsetIsSmaller(a: set<Code>, b: set<Code>)
    requires a <= b
    ensures |a| <= |b|
  {
    assert b == a + (b - a);
  }

  /** The table of refresh tokens, one committed transaction per method. */
  class RefreshTable {
    var rows: Rows

    constructor ()
      ensures rows == map[]
    {
      rows := map[];
    }

    /** `token_hash` is the primary key: a second insert of one hash fails. */
    method Insert(now: int, hash: TokenHash, grant: Grant, familyId: FamilyId, ttl: int) returns (inserted: bool)
      modifies this
      ensures inserted == (hash !in old(rows))
      ensures rows == if inserted then old(rows)[hash := RefreshRow(grant, familyId, false, now + ttl)] else old(rows)
    {
      inserted := hash !in rows;
      if inserted {
        rows := rows[hash := RefreshRow(grant, familyId, false, now + ttl)];
      }
    }

    /** Consume a token in one immediate transaction, detecting a replay. */
    method Consume(now: int, hash: TokenHash) returns (outcome: RefreshOutcome)
      modifies this
      ensures outcome == OutcomeOf(old(rows), now, hash)
      ensures rows == Presented(old(rows), now, hash)
      ensures outcome.Missing? <==> hash !in old(rows) || old(rows)[hash].expiresAt < now
      ensures outcome.Replayed? ==> old(rows)[hash].consumed && outcome.familyId == old(rows)[hash].familyId && rows == old(rows)
      ensures outcome.Valid? ==> !outcome.row.consumed && outcome.row == old(rows)[hash] && rows == old(rows)[hash := rows[hash]]
      ensures outcome.Valid? ==> OutcomeOf(rows, now, hash) == Replayed(outcome.row.familyId)
    {
      if hash !in rows {
        return Missing;
      }
      var row := rows[hash];
      if row.expiresAt < now {
        rows := rows - {hash};
        return Missing;
      }
      if row.consumed {
        assert rows[hash := row.(consumed := true)] == rows;
        return Replayed(row.familyId);
      }
      rows := rows[hash := row.(consumed := true)];
      return Valid(row);
    }

    method RevokeFamily(familyId: FamilyId)
      modifies this
      ensures rows == WithoutFamily(old(rows), familyId)
      ensures forall h :: h in rows <==> h in old(rows) && old(rows)[h].familyId != familyId
      ensures forall h :: h in rows ==> rows[h] == old(rows)[h]
    {
      rows := map h | h in rows && rows[h].familyId != familyId :: rows[h];
    }

    method RevokeUserClient(userId: UserId, clientId: ClientId) returns (removed: nat)
      modifies this
      ensures rows == WithoutUserClient(old(rows), userId, clientId)
      ensures forall h :: h in rows <==>
                h in old(rows) && (old(rows)[h].grant.userId != userId || old(rows)[h].grant.clientId != clientId)
      ensures forall h :: h in rows ==> rows[h] == old(rows)[h]
      ensures removed == |old(rows).Keys - rows.Keys|
    {
      var kept := map h | h in rows && !(rows[h].grant.userId == userId && rows[h].grant.clientId == clientId) :: rows[h];
      removed := |rows.Keys - kept.Keys|;
      rows := kept;
    }
  }
}
