/**
 * The session registry and the mailbox of src/database.rs.
 *
 * The registry is the in-memory map from identifier to `Session`. The
 * mailbox is the SQLite table `MAIL (dest, payload)`, modelled as the
 * sequence of its rows; SQLite itself is not modelled.
 */
module Database {
  import opened Wrappers
  import opened Handles
  import opened Types

  datatype DatabaseError = Invalid | NoRows

  /** What the registry knows about one identifier. */
  datatype Session = Session(addr: Option<ClientAddr>, alive: bool, password: Option<string>)

  type Sessions = map<string, Session>

  /**
   * A stored column value. Only a text value reads back as a Rust `String`;
   * anything else (an integer, a blob, NULL) makes the row fail to decode.
   */
  datatype Cell = Text(text: string) | NonText

  /** One row of the MAIL table. */
  datatype Row = Row(dest: Cell, payload: Cell)

  /** A failure reported by the storage engine (`rusqlite::Error`). */
  datatype StoreError = StoreError

  /** The row `save_mail_for(identifier, mail)` inserts. */
  function MailRow(identifier: string, mail: string): Row {
    Row(Text(identifier), Text(mail))
  }

  /** Every live session knows where its client is. */
  predicate LiveHasAddr(sessions: Sessions) {
    forall id :: id in sessions && sessions[id].alive ==> sessions[id].addr.Some?
  }

  /** The registry after `activate_self(id, password, addr)`. */
  function Activated(sessions: Sessions, id: string, password: string, addr: ClientAddr): (r: Sessions)
    ensures r.Keys == sessions.Keys + {id}
    ensures r[id].alive && r[id].addr == Some(addr) && r[id].password == Some(password)
    ensures forall k :: k in sessions && k != id ==> r[k] == sessions[k]
    ensures LiveHasAddr(sessions) ==> LiveHasAddr(r)
  {
    sessions[id := Session(Some(addr), true, Some(password))]
  }

  /** The registry after `deactivate(id)`. */
  function Deactivated(sessions: Sessions, id: string): (r: Sessions)
    ensures r.Keys == sessions.Keys
    ensures id !in sessions ==> r == sessions
    ensures id in sessions ==> !r[id].alive && r[id].password == None && r[id].addr == sessions[id].addr
    ensures forall k :: k in sessions && k != id ==> r[k] == sessions[k]
    ensures LiveHasAddr(sessions) ==> LiveHasAddr(r)
  {
    if id in sessions then sessions[id := sessions[id].(alive := false, password := None)] else sessions
  }

  /** The row mapping of the query: both columns must read back as text. */
  function DecodeRow(row: Row): Option<Email> {
    if row.dest.Text? && row.payload.Text? then Some(Email(row.payload.text, row.dest.text)) else None
  }

  /** What one row contributes to `get_mails_for(identifier)`. */
  function RowMail(row: Row, identifier: string): seq<Email> {
    if row.dest == Text(identifier) then
      match DecodeRow(row)
      case Some(e) => [e]
      case None => []
    else []
  }

  /** The mails `get_mails_for(identifier)` collects from `rows`, in table order. */
  function MailsFor(rows: seq<Row>, identifier: string): (r: seq<Email>)
    ensures |r| <= |rows|
    ensures forall e :: e in r ==> e.destination == identifier
  {
    if rows == [] then [] else MailsFor(rows[..|rows| - 1], identifier) + RowMail(rows[|rows| - 1], identifier)
  }

  /**
   * A mail is fetched for `identifier` exactly when some row carries that
   * destination and a text payload: other destinations and rows whose
   * payload does not decode are left out.
   */
  lemma {:induction false} MailsForMember(rows: seq<Row>, identifier: string, e: Email)
    ensures e in MailsFor(rows, identifier) <==>
      e.destination == identifier && exists i :: 0 <= i < |rows| && rows[i] == MailRow(identifier, e.payload)
  {
    if rows != [] {
      var init := rows[..|rows| - 1];
      MailsForMember(init, identifier, e);
      if e.destination == identifier && rows[|rows| - 1] != MailRow(identifier, e.payload) {
        assert e !in RowMail(rows[|rows| - 1], identifier);
        if exists i :: 0 <= i < |rows| && rows[i] == MailRow(identifier, e.payload) {
          var i :| 0 <= i < |rows| && rows[i] == MailRow(identifier, e.payload);
          assert init[i] == rows[i];
        }
      }
      if e in MailsFor(init, identifier) {
        var i :| 0 <= i < |init| && init[i] == MailRow(identifier, e.payload);
        assert rows[i] == init[i];
      }
    }
  }

  /**
   * Saving a mail for `d` adds it at the end of what is fetched for `d`
   * and changes nothing fetched for any other identifier.
   */
  lemma SaveThenFetch(rows: seq<Row>, d: string, mail: string, other: string)
    ensures MailsFor(rows + [MailRow(d, mail)], d) == MailsFor(rows, d) + [Email(mail, d)]
    ensures other != d ==> MailsFor(rows + [MailRow(d, mail)], other) == MailsFor(rows, other)
  {
  }

  /** The state of one `Database` value: the registry and the MAIL table. */
  class Database {
    var sessions: Sessions
    var mail: seq<Row>

    /** Every live session has an address; every reachable state keeps this. */
    predicate Valid()
      reads this
    {
      LiveHasAddr(sessions)
    }

    /** `Database::new`: an empty registry over an existing MAIL table. */
    constructor (table: seq<Row>)
      ensures Valid()
      ensures sessions == map[] && mail == table
    {
      sessions := map[];
      mail := table;
    }

    /** `get_addr`: the stored address, which survives deactivation. */
    function GetAddr(identifier: string): (r: Option<ClientAddr>)
      reads this
      ensures identifier !in sessions ==> r == None
      ensures identifier in sessions ==> r == sessions[identifier].addr
      ensures Valid() && identifier in sessions && sessions[identifier].alive ==> r.Some?
    {
      if identifier in sessions then sessions[identifier].addr else None
    }

    /** `is_alive`: `NoRows` exactly for identifiers the registry does not hold. */
    function IsAlive(identifier: string): (r: Result<bool, DatabaseError>)
      reads this
      ensures r == Err(NoRows) <==> identifier !in sessions
      ensures r.Ok? <==> identifier in sessions
      ensures r.Ok? ==> r.value == sessions[identifier].alive
    {
      if identifier in sessions then Ok(sessions[identifier].alive) else Err(NoRows)
    }

    /**
     * `get_mails_for`: the decodable rows addressed to `identifier`. The
     * query has no ORDER BY, so only the multiset of the result is promised.
     * `queryFails` stands for the storage engine refusing the query.
     */
    method GetMailsFor(identifier: string, queryFails: bool) returns (r: Result<seq<Email>, StoreError>)
      ensures r.Err? <==> queryFails
      ensures r.Ok? ==> multiset(r.value) == multiset(MailsFor(mail, identifier))
    {
      if queryFails {
        return Err(StoreError);
      }
      var result: seq<Email> := [];
      var i := 0;
      while i < |mail|
        invariant 0 <= i <= |mail|
        invariant result == MailsFor(mail[..i], identifier)
      {
        var row := mail[i];
        if row.dest == Text(identifier) {
          match DecodeRow(row)
          case Some(e) => result := result + [e];
          case None =>
        }
        assert mail[..i + 1][..i] == mail[..i];
        i := i + 1;
      }
      assert mail[..i] == mail;
      r := Ok(result);
    }

    /**
     * `save_mail_for`: inserts exactly one row and reports one changed row,
     * or fails and inserts nothing. `storeFails` stands for an I/O failure.
     */
    method SaveMailFor(identifier: string, m: string, storeFails: bool) returns (r: Result<nat, StoreError>)
      modifies this`mail
      ensures r.Err? <==> storeFails
      ensures r.Ok? ==> r.value == 1
      ensures mail == if storeFails then old(mail) else old(mail) + [MailRow(identifier, m)]
    {
      if storeFails {
        return Err(StoreError);
      }
      mail := mail + [MailRow(identifier, m)];
      r := Ok(1);
    }

    /**
     * `activate_self`: always succeeds; an existing session is overwritten
     * whatever its old password, an unknown identifier gets a new session.
     */
    method ActivateSelf(identifier: string, password: string, addr: ClientAddr) returns (r: Result<(), DatabaseError>)
      requires Valid()
      modifies this`sessions
      ensures Valid()
      ensures r == Ok(())
      ensures sessions == Activated(old(sessions), identifier, password, addr)
    {
      if identifier in sessions {
        var session := sessions[identifier];
        session := session.(alive := true);
        session := session.(password := Some(password));
        session := session.(addr := Some(addr));
        sessions := sessions[identifier := session];
        r := Ok(());
      } else {
        sessions := sessions[identifier := Session(Some(addr), true, Some(password))];
        r := Ok(());
      }
    }

    /** `deactivate`: marks a known session dead and forgets its password. */
    method Deactivate(id: string)
      requires Valid()
      modifies this`sessions
      ensures Valid()
      ensures sessions == Deactivated(old(sessions), id)
    {
      if id in sessions {
        var session := sessions[id];
        session := session.(alive := false);
        session := session.(password := None);
        sessions := sessions[id := session];
      }
    }
  }
}
