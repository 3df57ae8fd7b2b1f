/** The reservation routes, mounted under `/api/catways/:catwayNumber/reservations`
    and, without a catway in the URL, under `/api/reservations`. The store is a
    table from document id to reservation; the booking rule keeps the
    reservations of each catway pairwise disjoint as closed intervals. */
module Reservations {
  import opened Js
  import opened ReservationModel

  /** A document id (`_id`); ids are allocated fresh on insertion. */
  type Id = nat

  /** The JSON body of POST and PUT. */
  datatype ReservationBody = ReservationBody(
    clientName: Js<string>,
    boatName: Js<string>,
    startDate: Js<string>,
    endDate: Js<string>)

  /** A stored reservation as the routes send it back: the document and its `_id`. */
  datatype Doc = Doc(id: Id, reservation: Reservation)

  const MsgNotFound := "Réservation introuvable"
  const MsgNotLinked := "Réservation non liée à ce catway"
  const MsgNoCatway := "catwayNumber requis dans l'URL"
  const MsgMissing := "Champs requis manquants"
  const MsgBadRange := "startDate doit être avant endDate"
  const MsgOverlap := "Chevauchement avec une réservation existante"

  /** The query of `hasOverlap` for one stored reservation:
      `startDate <= end` and `endDate >= start`. */
  predicate Meets(r: Reservation, start: Instant, end: Instant) {
    r.startDate <= end && r.endDate >= start
  }

  /** `hasOverlap(catwayNumber, start, end, excludeId)`: some stored
      reservation on that catway, other than `excludeId`, meets the range. */
  predicate Overlapping(table: map<Id, Reservation>, catwayNumber: int, start: Instant, end: Instant, exclude: Option<Id>) {
    exists id | id in table :: table[id].catwayNumber == catwayNumber && Meets(table[id], start, end) && exclude != Some(id)
  }

  /** Two closed ranges share an instant. */
  ghost predicate ShareInstant(s1: Instant, e1: Instant, s2: Instant, e2: Instant) {
    exists t :: Within(t, s1, e1) && Within(t, s2, e2)
  }

  predicate Within(t: Instant, start: Instant, end: Instant) {
    start <= t <= end
  }

  /** The invariant of the table: two distinct reservations on one catway never meet. */
  ghost predicate Disjoint(table: map<Id, Reservation>) {
    forall i, j :: i in table && j in table && i != j && table[i].catwayNumber == table[j].catwayNumber
      ==> !Meets(table[i], table[j].startDate, table[j].endDate)
  }

  /** Every stored reservation has a strict range and non-empty names. */
  ghost predicate Proper(table: map<Id, Reservation>) {
    forall id :: id in table ==> table[id].startDate < table[id].endDate && SaveCheck(table[id]).None?
  }

  /** The overlap query is the closed-interval test: for non-empty ranges it
      holds exactly when they share an instant, that is when the later start
      is not after the earlier end. Touching endpoints count. */
  lemma MeetsIffShareInstant(r: Reservation, start: Instant, end: Instant)
    requires r.startDate <= r.endDate && start <= end
    ensures Meets(r, start, end) <==> ShareInstant(r.startDate, r.endDate, start, end)
    ensures Meets(r, start, end) <==> Max(r.startDate, start) <= Min(r.endDate, end)
  {
    if Meets(r, start, end) {
      var t := Max(r.startDate, start);
      assert Within(t, r.startDate, r.endDate) && Within(t, start, end);
    }
  }

  function Max(a: int, b: int): int { if a < b then b else a }
  function Min(a: int, b: int): int { if a < b then a else b }

  /** The excluded reservation never contributes: the query with `excludeId`
      is the query without it over the table with that reservation removed. */
  lemma ExcludedNeverCounts(table: map<Id, Reservation>, catwayNumber: int, start: Instant, end: Instant, x: Id)
    ensures Overlapping(table, catwayNumber, start, end, Some(x)) == Overlapping(table - {x}, catwayNumber, start, end, None)
  {
    if Overlapping(table - {x}, catwayNumber, start, end, None) {
      var id :| id in table - {x} && (table - {x})[id].catwayNumber == catwayNumber && Meets((table - {x})[id], start, end);
      assert table[id] == (table - {x})[id];
    }
  }

  /** A booking that meets no reservation of its catway can join a disjoint table. */
  lemma InsertKeepsDisjoint(table: map<Id, Reservation>, id: Id, r: Reservation)
    requires Disjoint(table) && id !in table
    requires !Overlapping(table, r.catwayNumber, r.startDate, r.endDate, None)
    ensures Disjoint(table[id := r])
  {
    var t := table[id := r];
    forall i, j | i in t && j in t && i != j && t[i].catwayNumber == t[j].catwayNumber
      ensures !Meets(t[i], t[j].startDate, t[j].endDate)
    {
      if i == id {
        assert !Meets(table[j], r.startDate, r.endDate);
      } else if j == id {
        assert !Meets(table[i], r.startDate, r.endDate);
      } else {
        assert t[i] == table[i] && t[j] == table[j];
      }
    }
  }

  /** Replacing a reservation by one that meets no other reservation of its
      catway keeps the table disjoint. */
  lemma ReplaceKeepsDisjoint(table: map<Id, Reservation>, id: Id, r: Reservation)
    requires Disjoint(table) && id in table
    requires !Overlapping(table, r.catwayNumber, r.startDate, r.endDate, Some(id))
    ensures Disjoint(table[id := r])
  {
    ExcludedNeverCounts(table, r.catwayNumber, r.startDate, r.endDate, id);
    var rest := table - {id};
    assert Disjoint(rest) by {
      forall i, j | i in rest && j in rest && i != j && rest[i].catwayNumber == rest[j].catwayNumber
        ensures !Meets(rest[i], rest[j].startDate, rest[j].endDate)
      {
        assert rest[i] == table[i] && rest[j] == table[j];
      }
    }
    InsertKeepsDisjoint(rest, id, r);
    assert rest[id := r] == table[id := r];
  }

  /** The guards of POST `/` that need no store: a catway in the URL, the four
      body fields truthy, both dates parseable and start strictly before end.
      On success, the document the route builds (the schema trims the names). */
  function ValidateCreate(url: Option<int>, body: ReservationBody, parse: string -> Option<Instant>): (v: Result<Reservation, Reply<Doc>>)
    ensures v.Failure? ==> v.error.Message? && v.error.status == 400
    ensures url.None? ==> v == Failure(Message(400, MsgNoCatway))
    ensures url.Some? && !Complete(body) ==> v == Failure(Message(400, MsgMissing))
    ensures url.Some? && Complete(body) && !GoodRange(parse(body.startDate.v), parse(body.endDate.v))
      ==> v == Failure(Message(400, MsgBadRange))
    ensures v.Success? <==> url.Some? && Complete(body) && GoodRange(parse(body.startDate.v), parse(body.endDate.v))
    ensures v.Success? ==>
      && url == Some(v.value.catwayNumber)
      && Complete(body)
      && parse(body.startDate.v) == Some(v.value.startDate)
      && parse(body.endDate.v) == Some(v.value.endDate)
      && v.value.startDate < v.value.endDate
      && v.value.clientName == Trim(body.clientName.v)
      && v.value.boatName == Trim(body.boatName.v)
  {
    if url.None? then Failure(Message(400, MsgNoCatway))
    else if !Complete(body) then Failure(Message(400, MsgMissing))
    else
      var start, end := parse(body.startDate.v), parse(body.endDate.v);
      if !GoodRange(start, end) then Failure(Message(400, MsgBadRange))
      else Success(Make(url.value, body.clientName.v, body.boatName.v, start.value, end.value))
  }

  /** `!clientName || !boatName || !startDate || !endDate` is false. */
  predicate Complete(body: ReservationBody) {
    Truthy(body.clientName) && Truthy(body.boatName) && Truthy(body.startDate) && Truthy(body.endDate)
  }

  /** `isNaN(start) || isNaN(end) || start >= end` is false. */
  predicate GoodRange(start: Option<Instant>, end: Option<Instant>) {
    start.Some? && end.Some? && start.value < end.value
  }

  /** The dates PUT `/:id` checks: a falsy body date keeps the stored one,
      a truthy one is parsed; none when a date does not parse or the range
      is not strict. */
  function PatchedRange(r: Reservation, body: ReservationBody, parse: string -> Option<Instant>): (d: Option<(Instant, Instant)>)
    ensures d.Some? ==> d.value.0 < d.value.1
    ensures d.Some? ==> if Truthy(body.startDate) then parse(body.startDate.v) == Some(d.value.0) else d.value.0 == r.startDate
    ensures d.Some? ==> if Truthy(body.endDate) then parse(body.endDate.v) == Some(d.value.1) else d.value.1 == r.endDate
    ensures !Truthy(body.startDate) && !Truthy(body.endDate) ==> (d.Some? <==> r.startDate < r.endDate)
    ensures d.None? <==> !GoodRange(
      if Truthy(body.startDate) then parse(body.startDate.v) else Some(r.startDate),
      if Truthy(body.endDate) then parse(body.endDate.v) else Some(r.endDate))
  {
    var start := if Truthy(body.startDate) then parse(body.startDate.v) else Some(r.startDate);
    var end := if Truthy(body.endDate) then parse(body.endDate.v) else Some(r.endDate);
    if GoodRange(start, end) then Some((start.value, end.value)) else None
  }

  /** The document PUT `/:id` saves: truthy names replace the stored ones
      (trimmed by the schema), the dates are the checked ones, the catway
      number is kept. */
  function Patched(r: Reservation, body: ReservationBody, start: Instant, end: Instant): (n: Reservation)
    ensures n.catwayNumber == r.catwayNumber && n.startDate == start && n.endDate == end
    ensures !Truthy(body.clientName) ==> n.clientName == r.clientName
    ensures !Truthy(body.boatName) ==> n.boatName == r.boatName
    ensures Truthy(body.clientName) ==> n.clientName == [] || (!IsSpace(n.clientName[0]) && !IsSpace(n.clientName[|n.clientName| - 1]))
    ensures Truthy(body.boatName) ==> n.boatName == [] || (!IsSpace(n.boatName[0]) && !IsSpace(n.boatName[|n.boatName| - 1]))
    ensures Truthy(body.clientName) ==> exists i, j :: IsTrimCut(body.clientName.v, i, j) && n.clientName == body.clientName.v[i..j]
    ensures Truthy(body.boatName) ==> exists i, j :: IsTrimCut(body.boatName.v, i, j) && n.boatName == body.boatName.v[i..j]
  {
    Reservation(
      r.catwayNumber,
      if Truthy(body.clientName) then Trim(body.clientName.v) else r.clientName,
      if Truthy(body.boatName) then Trim(body.boatName.v) else r.boatName,
      start, end)
  }

  /** `findById` found the reservation and, when the URL names a catway,
      it is that reservation's catway. */
  predicate Linked(table: map<Id, Reservation>, url: Option<int>, id: Id) {
    id in table && (url.None? || url.value == table[id].catwayNumber)
  }

  /** The route's range check is strict, the schema's is not: a zero-length
      booking is refused by POST with 400, although the document the route
      would build from it passes every check of the schema whenever its
      trimmed names are non-empty. */
  lemma ZeroLengthRefusedByRouteOnly(c: int, body: ReservationBody, parse: string -> Option<Instant>, t: Instant)
    requires Complete(body) && parse(body.startDate.v) == Some(t) && parse(body.endDate.v) == Some(t)
    requires Trim(body.clientName.v) != "" && Trim(body.boatName.v) != ""
    ensures ValidateCreate(Some(c), body, parse) == Failure(Message(400, MsgBadRange))
    ensures SaveCheck(Make(c, body.clientName.v, body.boatName.v, t, t)).None?
  {
  }

  class ReservationTable {
    var table: map<Id, Reservation>
    var nextId: Id

    ghost predicate Valid()
      reads this
    {
      && Disjoint(table)
      && Proper(table)
      && (forall id :: id in table ==> id < nextId)
    }

    constructor ()
      ensures Valid() && table == map[]
    {
      table := map[];
      nextId := 0;
    }

    /** GET `/`: every reservation, or those of the catway in the URL. */
    function List(url: Option<int>): (m: map<Id, Reservation>)
      reads this
      ensures forall id :: id in m <==> id in table && (url.None? || table[id].catwayNumber == url.value)
      ensures forall id :: id in m ==> m[id] == table[id]
    {
      map id | id in table && (url.None? || table[id].catwayNumber == url.value) :: table[id]
    }

    /** GET `/:id`: 404 for an unknown id or one booked on another catway. */
    function Get(url: Option<int>, id: Id): (reply: Reply<Doc>)
      reads this
      ensures id !in table ==> reply == Message(404, MsgNotFound)
      ensures id in table && !Linked(table, url, id) ==> reply == Message(404, MsgNotLinked)
      ensures reply.Json? <==> Linked(table, url, id)
      ensures reply.Json? ==> reply == Json(200, Doc(id, table[id]))
    {
      if id !in table then Message(404, MsgNotFound)
      else if url.Some? && table[id].catwayNumber != url.value then Message(404, MsgNotLinked)
      else Json(200, Doc(id, table[id]))
    }

    /** POST `/`: validate, refuse an overlap with 409, save (the schema may
        still refuse a blank name), and answer 201 with the new document. */
    method Create(url: Option<int>, body: ReservationBody, parse: string -> Option<Instant>) returns (reply: Reply<Doc>)
      requires Valid()
      modifies this
      ensures Valid()
      ensures var v := ValidateCreate(url, body, parse);
        && (v.Failure? ==> reply == v.error)
        && (v.Success? && Overlapping(old(table), v.value.catwayNumber, v.value.startDate, v.value.endDate, None)
            ==> reply == Message(409, MsgOverlap))
        && ((v.Success? && !Overlapping(old(table), v.value.catwayNumber, v.value.startDate, v.value.endDate, None)
             && SaveCheck(v.value).Some?) ==> reply == Crash)
        && (reply.Json? <==> (v.Success? && !Overlapping(old(table), v.value.catwayNumber, v.value.startDate, v.value.endDate, None)
                              && SaveCheck(v.value).None?))
        && (reply.Json? ==> reply.status == 201 && reply.body.reservation == v.value)
      ensures reply.Json? ==> reply.body.id !in old(table) && table == old(table)[reply.body.id := reply.body.reservation]
      ensures !reply.Json? ==> table == old(table)
    {
      var v := ValidateCreate(url, body, parse);
      if v.Failure? {
        return v.error;
      }
      var r := v.value;
      if Overlapping(table, r.catwayNumber, r.startDate, r.endDate, None) {
        return Message(409, MsgOverlap);
      }
      if SaveCheck(r).Some? {
        return Crash;
      }
      InsertKeepsDisjoint(table, nextId, r);
      var id := nextId;
      table := table[id := r];
      nextId := nextId + 1;
      reply := Json(201, Doc(id, r));
    }

    /** PUT `/:id`: 404 unless linked, then the dates are rechecked and the
        overlap query runs on the stored catway excluding the reservation
        itself; on success only that reservation changes. */
    method Update(url: Option<int>, id: Id, body: ReservationBody, parse: string -> Option<Instant>) returns (reply: Reply<Doc>)
      requires Valid()
      modifies this
      ensures Valid() && nextId == old(nextId)
      ensures id !in old(table) ==> reply == Message(404, MsgNotFound)
      ensures id in old(table) && !Linked(old(table), url, id) ==> reply == Message(404, MsgNotLinked)
      ensures Linked(old(table), url, id) ==>
        var r := old(table)[id];
        var d := PatchedRange(r, body, parse);
        && (d.None? ==> reply == Message(400, MsgBadRange))
        && (d.Some? && Overlapping(old(table), r.catwayNumber, d.value.0, d.value.1, Some(id)) ==> reply == Message(409, MsgOverlap))
        && ((d.Some? && !Overlapping(old(table), r.catwayNumber, d.value.0, d.value.1, Some(id))
             && SaveCheck(Patched(r, body, d.value.0, d.value.1)).Some?) ==> reply == Crash)
        && (reply.Json? <==> (d.Some? && !Overlapping(old(table), r.catwayNumber, d.value.0, d.value.1, Some(id))
                              && SaveCheck(Patched(r, body, d.value.0, d.value.1)).None?))
      ensures reply.Json? ==>
        && id in old(table) && id in table
        && reply == Json(200, Doc(id, table[id]))
        && table == old(table)[id := table[id]]
        && table[id].catwayNumber == old(table)[id].catwayNumber
        && table[id].clientName == (if Truthy(body.clientName) then Trim(body.clientName.v) else old(table)[id].clientName)
        && table[id].boatName == (if Truthy(body.boatName) then Trim(body.boatName.v) else old(table)[id].boatName)
        && (if Truthy(body.startDate) then parse(body.startDate.v) == Some(table[id].startDate)
            else table[id].startDate == old(table)[id].startDate)
        && (if Truthy(body.endDate) then parse(body.endDate.v) == Some(table[id].endDate)
            else table[id].endDate == old(table)[id].endDate)
        && table[id].startDate < table[id].endDate
      ensures !reply.Json? ==> table == old(table)
    {
      if id !in table {
        return Message(404, MsgNotFound);
      }
      var r := table[id];
      if url.Some? && r.catwayNumber != url.value {
        return Message(404, MsgNotLinked);
      }
      var d := PatchedRange(r, body, parse);
      if d.None? {
        return Message(400, MsgBadRange);
      }
      var start, end := d.value.0, d.value.1;
      if Overlapping(table, r.catwayNumber, start, end, Some(id)) {
        return Message(409, MsgOverlap);
      }
      var updated := Patched(r, body, start, end);
      if SaveCheck(updated).Some? {
        return Crash;
      }
      ReplaceKeepsDisjoint(table, id, updated);
      table := table[id := updated];
      reply := Json(200, Doc(id, updated));
    }

    /** DELETE `/:id`: removes exactly that document, whatever catway the URL names. */
    method Delete(id: Id) returns (reply: Reply<Doc>)
      requires Valid()
      modifies this
      ensures Valid() && nextId == old(nextId)
      ensures id in old(table) ==> reply == NoContent && table == old(table) - {id}
      ensures id !in old(table) ==> reply == Message(404, MsgNotFound) && table == old(table)
    {
      if id !in table {
        return Message(404, MsgNotFound);
      }
      table := table - {id};
      reply := NoContent;
    }
  }
}
