/** The authorization server's refresh-token table: rotation, and reuse detection that revokes a
    whole lineage. A lineage is everything descended from one authorization code. Each operation
    runs in one database transaction under the lineage lock, so it is one atomic step here. */
module AuthServer {

  datatype Row = Row(lineage: int, clientId: string, consumed: bool, revoked: bool, expiresAt: int)

  type Table = map<string, Row>

  datatype Verdict =
    | Unknown
    | Revoked
    | Reused(lineage: int)
    | Lapsed
    | Rejected
    | Rotated(lineage: int)

  /** The successor's random plaintext and its expiry. */
  datatype Mint = Mint(token: string, expiresAt: int)

  function Lineages(rows: Table): set<int> {
    set t | t in rows :: rows[t].lineage
  }

  /** The lineage of a token, or -1 for one the server does not know. */
  function LineageOf(rows: Table, token: string): int {
    if token in rows then rows[token].lineage else -1
  }

  function Sweep(rows: Table, lineage: int): Table {
    map t | t in rows :: if rows[t].lineage == lineage then rows[t].(revoked := true) else rows[t]
  }

  /** Classification of a presented token: revoked, then reused, then lapsed, then the
      client binding. */
  function Classify(rows: Table, token: string, clientId: string, at: int): Verdict {
    if token !in rows then Unknown
    else
      var row := rows[token];
      if row.revoked then Revoked
      else if row.consumed then Reused(row.lineage)
      else if at >= row.expiresAt then Lapsed
      else if row.clientId != clientId then Rejected
      else Rotated(row.lineage)
  }

  /** The table after a presentation: a sweep, a successor, or nothing. */
  function Settle(rows: Table, token: string, verdict: Verdict, mint: Mint): Table
    requires verdict.Rotated? ==> token in rows
  {
    match verdict
    case Reused(lineage) => Sweep(rows, lineage)
    case Rotated(lineage) =>
      rows[mint.token := Row(lineage, rows[token].clientId, false, false, mint.expiresAt)]
          [token := rows[token].(consumed := true)]
    case _ => rows
  }

  function Enroll(rows: Table, token: string, lineage: int, clientId: string, expiresAt: int): Table {
    rows[token := Row(lineage, clientId, false, false, expiresAt)]
  }

  /** At most one token of a lineage is unconsumed: the chain has one head. */
  ghost predicate OneHead(rows: Table) {
    forall t, u | t in rows && u in rows && rows[t].lineage == rows[u].lineage ::
      !rows[t].consumed && !rows[u].consumed ==> t == u
  }

  ghost predicate Dead(rows: Table, lineage: int) {
    forall t :: t in rows && rows[t].lineage == lineage ==> rows[t].revoked
  }

  lemma Known(rows: Table, t: string)
    requires t in rows
    ensures rows[t].lineage in Lineages(rows)
  {
  }

  /** Tables with the same tokens, and perhaps more of a known lineage, have the same lineages. */
  lemma SameLineages(rows: Table, rows': Table)
    requires forall t :: t in rows ==> t in rows' && rows'[t].lineage == rows[t].lineage
    requires forall t :: t in rows' && t !in rows ==> rows'[t].lineage in Lineages(rows)
    ensures Lineages(rows') == Lineages(rows)
  {
    forall l: int | l in Lineages(rows) ensures l in Lineages(rows') {
      var t :| t in rows && rows[t].lineage == l;
      Known(rows', t);
    }
    forall l: int | l in Lineages(rows') ensures l in Lineages(rows) {
      var t :| t in rows' && rows'[t].lineage == l;
      if t in rows {
        Known(rows, t);
      }
    }
  }

  class OAuthStore {
    var rows: Table

    constructor ()
      ensures rows == map[] && OneHead(rows)
    {
      rows := map[];
    }

    /** RotateRefreshToken, statement by statement. */
    method RotateRefreshToken(token: string, clientId: string, at: int, mint: Mint) returns (verdict: Verdict)
      requires OneHead(rows) && mint.token !in rows
      modifies this
      // the verdict, in the order revoked, reused, lapsed, rejected
      ensures verdict == Unknown <==> token !in old(rows)
      ensures token in old(rows) ==>
                var row := old(rows)[token];
                && (verdict == Revoked <==> row.revoked)
                && (verdict.Reused? <==> !row.revoked && row.consumed)
                && (verdict == Lapsed <==> !row.revoked && !row.consumed && at >= row.expiresAt)
                && (verdict == Rejected <==>
                      !row.revoked && !row.consumed && at < row.expiresAt && row.clientId != clientId)
                && (verdict.Reused? || verdict.Rotated? ==> verdict.lineage == row.lineage)
      // a rotation adds the live successor, consumes the presented token and touches no other row
      ensures verdict.Rotated? ==>
                && rows.Keys == old(rows).Keys + {mint.token}
                && rows[mint.token] == Row(old(rows)[token].lineage, clientId, false, false, mint.expiresAt)
                && rows[token] == old(rows)[token].(consumed := true)
                && forall t :: t in old(rows) && t != token ==> rows[t] == old(rows)[t]
      // a reuse leaves the whole lineage revoked and no other row changed
      ensures verdict.Reused? ==>
                && rows.Keys == old(rows).Keys && Dead(rows, verdict.lineage)
                && forall t :: t in old(rows) ==>
                     if old(rows)[t].lineage == verdict.lineage then rows[t].consumed == old(rows)[t].consumed
                     else rows[t] == old(rows)[t]
      ensures !verdict.Rotated? && !verdict.Reused? ==> rows == old(rows)
      ensures OneHead(rows)
      // so the call is the protocol's atomic service of a request
      ensures verdict == Classify(old(rows), token, clientId, at)
      ensures rows == Settle(old(rows), token, verdict, mint)
    {
      if token !in rows {
        return Unknown;
      }
      var presented := rows[token];
      if presented.revoked {
        return Revoked;
      }
      if presented.consumed {
        rows := Sweep(rows, presented.lineage);
        return Reused(presented.lineage);
      }
      if at >= presented.expiresAt {
        return Lapsed;
      }
      if presented.clientId != clientId {
        return Rejected;
      }
      rows := rows[mint.token := Row(presented.lineage, presented.clientId, false, false, mint.expiresAt)];
      rows := rows[token := presented.(consumed := true)];
      return Rotated(presented.lineage);
    }
  }

  /** A presentation keeps the chain one-headed, creates no lineage, and never revives a dead
      one; reuse kills the lineage it names and touches no other row. */
  lemma PresentationKeepsChains(rows: Table, token: string, clientId: string, at: int, mint: Mint)
    requires OneHead(rows) && mint.token !in rows
    ensures var v := Classify(rows, token, clientId, at);
            var after := Settle(rows, token, v, mint);
            && OneHead(after)
            && Lineages(after) == Lineages(rows)
            && (forall l :: Dead(rows, l) ==> v != Rotated(l) && Dead(after, l))
            && (v.Reused? ==>
                  && Dead(after, v.lineage)
                  && forall t :: t in rows && rows[t].lineage != v.lineage ==> t in after && after[t] == rows[t])
  {
    var after := Settle(rows, token, Classify(rows, token, clientId, at), mint);
    if token in rows {
      Known(rows, token);
    }
    SameLineages(rows, after);
  }

  /** An operation on the table: a presentation, a fresh enrolment, or an operator's sweep. */
  datatype Op =
    | Present(token: string, clientId: string, at: int, mint: Mint)
    | Issue(token: string, lineage: int, clientId: string, expiresAt: int)
    | Revoke(lineage: int)

  /** Minted plaintexts are new, and so is an enrolled lineage. */
  ghost predicate Possible(rows: Table, op: Op) {
    match op
    case Present(_, _, _, mint) => mint.token !in rows
    case Issue(token, lineage, _, _) => token !in rows && lineage !in Lineages(rows)
    case Revoke(_) => true
  }

  function Perform(rows: Table, op: Op): Table {
    match op
    case Present(token, clientId, at, mint) => Settle(rows, token, Classify(rows, token, clientId, at), mint)
    case Issue(token, lineage, clientId, expiresAt) => Enroll(rows, token, lineage, clientId, expiresAt)
    case Revoke(lineage) => Sweep(rows, lineage)
  }

  ghost predicate History(rows: Table, ops: seq<Op>)
    decreases |ops|
  {
    ops == [] || (Possible(rows, ops[0]) && History(Perform(rows, ops[0]), ops[1..]))
  }

  function Replay(rows: Table, ops: seq<Op>): Table
    decreases |ops|
  {
    if ops == [] then rows else Replay(Perform(rows, ops[0]), ops[1..])
  }

  /** Once a lineage is dead it stays dead through every later history, which also keeps every
      chain one-headed: no successor of a swept lineage is ever minted. */
  lemma {:induction false} DeadForever(rows: Table, ops: seq<Op>, lineage: int)
    requires OneHead(rows) && Dead(rows, lineage) && lineage in Lineages(rows)
    requires History(rows, ops)
    ensures OneHead(Replay(rows, ops)) && Dead(Replay(rows, ops), lineage)
    decreases |ops|
  {
    if ops == [] {
    } else {
      var next := Perform(rows, ops[0]);
      match ops[0] {
        case Present(token, clientId, at, mint) => PresentationKeepsChains(rows, token, clientId, at, mint);
        case Issue(token, l, clientId, expiresAt) => IssueKeepsChains(rows, token, l, clientId, expiresAt, lineage);
        case Revoke(l) => SameLineages(rows, next);
      }
      DeadForever(next, ops[1..], lineage);
    }
  }

  lemma IssueKeepsChains(rows: Table, token: string, l: int, clientId: string, expiresAt: int, lineage: int)
    requires OneHead(rows) && Dead(rows, lineage) && lineage in Lineages(rows)
    requires token !in rows && l !in Lineages(rows)
    ensures var next := Enroll(rows, token, l, clientId, expiresAt);
            OneHead(next) && Dead(next, lineage) && lineage in Lineages(next)
  {
    var t :| t in rows && rows[t].lineage == lineage;
    Known(Enroll(rows, token, l, clientId, expiresAt), t);
    forall u | u in rows ensures rows[u].lineage != l {
      Known(rows, u);
    }
  }
}
