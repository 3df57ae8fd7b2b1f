/** The catway routes under `/api/catways`: the listing that tags each catway
    with its active reservation, lookup by number, creation, the state-only
    update and deletion. The catway collection is a sequence in store order. */
module Catways {
  import opened Js
  import opened CatwayModel
  import opened ReservationModel
  import Reservations

  /** The JSON body of POST `/`. */
  datatype CatwayBody = CatwayBody(catwayNumber: Js<int>, catwayType: Js<string>, catwayState: Js<string>)

  /** One entry of the listing: the catway's own fields plus `currentReservation`. */
  datatype Listed = Listed(catway: Catway, currentReservation: Option<Reservation>)

  const MsgCatwayNotFound := "Catway introuvable"
  const MsgCatwayRequired := "catwayNumber et catwayType requis"
  const MsgCatwayExists := "Catway déjà existant"
  const MsgStateRequired := "catwayState requis pour mise à jour"

  /** `startDate <= today` and `endDate >= today`. */
  predicate ActiveOn(r: Reservation, today: Instant) {
    r.startDate <= today <= r.endDate
  }

  /** The store query for the active reservations, in store order. */
  function ActiveAt(rs: seq<Reservation>, today: Instant): (a: seq<Reservation>)
    ensures forall r :: r in a <==> r in rs && ActiveOn(r, today)
  {
    if rs == [] then []
    else (if ActiveOn(rs[0], today) then [rs[0]] else []) + ActiveAt(rs[1..], today)
  }

  /** The query keeps store order: filtering one more reservation appends it
      when it is active and nothing otherwise. */
  lemma {:induction false} ActiveAtSnoc(rs: seq<Reservation>, r: Reservation, today: Instant)
    ensures ActiveAt(rs + [r], today) == ActiveAt(rs, today) + (if ActiveOn(r, today) then [r] else [])
  {
    if rs == [] {
      assert [] + [r] == [r];
    } else {
      assert (rs + [r])[1..] == rs[1..] + [r];
      ActiveAtSnoc(rs[1..], r, today);
    }
  }

  /** The reservation a `forEach` that overwrites `reservedMap[r.catwayNumber]`
      leaves for catway `c`: the last one of `rs` on that catway. */
  function LastOn(rs: seq<Reservation>, c: int): (r: Option<Reservation>)
    ensures r.None? <==> forall j :: 0 <= j < |rs| ==> rs[j].catwayNumber != c
    ensures r.Some? ==> exists i :: 0 <= i < |rs| && rs[i] == r.value && rs[i].catwayNumber == c
                                    && forall j :: i < j < |rs| ==> rs[j].catwayNumber != c
  {
    if rs == [] then None
    else if rs[|rs| - 1].catwayNumber == c then Some(rs[|rs| - 1])
    else
      var r := LastOn(rs[..|rs| - 1], c);
      assert forall j :: 0 <= j < |rs| - 1 ==> rs[..|rs| - 1][j] == rs[j];
      r
  }

  /** One more step of the `forEach`: the next reservation wins on its own
      catway and changes nothing on the others. */
  lemma LastOnPrefix(rs: seq<Reservation>, k: nat, c: int)
    requires k < |rs|
    ensures LastOn(rs[..k + 1], c) == if rs[k].catwayNumber == c then Some(rs[k]) else LastOn(rs[..k], c)
  {
    var p := rs[..k + 1];
    assert |p| - 1 == k && p[k] == rs[k];
    assert p[..k] == rs[..k];
  }

  /** `reservedMap[c] || null`. */
  function Lookup(m: map<int, Reservation>, c: int): Option<Reservation> {
    if c in m then Some(m[c]) else None
  }

  /** `Catway.findOne({ catwayNumber })`: the first catway with that number. */
  function IndexOf(cs: seq<Catway>, n: int): (k: Option<nat>)
    ensures k.Some? ==> k.value < |cs| && cs[k.value].catwayNumber == n
                        && forall i :: 0 <= i < k.value ==> cs[i].catwayNumber != n
    ensures k.None? <==> forall i :: 0 <= i < |cs| ==> cs[i].catwayNumber != n
  {
    if cs == [] then None
    else if cs[0].catwayNumber == n then Some(0)
    else
      var k := IndexOf(cs[1..], n);
      if k.Some? then Some(k.value + 1) else None
  }

  /** Numbers are unique (the schema's `unique` index). */
  ghost predicate UniqueNumbers(cs: seq<Catway>) {
    forall i, j :: 0 <= i < j < |cs| ==> cs[i].catwayNumber != cs[j].catwayNumber
  }

  /** The current reservation of the listing is an active reservation of that
      catway; it is missing only when the catway has none. */
  lemma CurrentIsActive(found: seq<Reservation>, today: Instant, c: int)
    ensures var cur := LastOn(ActiveAt(found, today), c);
      && (cur.Some? ==> cur.value in found && ActiveOn(cur.value, today) && cur.value.catwayNumber == c)
      && (cur.None? <==> forall r :: r in found && ActiveOn(r, today) ==> r.catwayNumber != c)
  {
    var a := ActiveAt(found, today);
    var cur := LastOn(a, c);
    if cur.Some? {
      var i :| 0 <= i < |a| && a[i] == cur.value && a[i].catwayNumber == c;
      assert a[i] in a;
    } else {
      forall r | r in found && ActiveOn(r, today) ensures r.catwayNumber != c {
        assert r in a;
        var i :| 0 <= i < |a| && a[i] == r;
      }
    }
  }

  /** While the bookings of a catway are disjoint, at most one is active at
      any instant, so "last one wins" never has to choose: whatever active
      booking the catway has is the one the listing reports. */
  lemma CurrentIsUnique(table: map<Reservations.Id, Reservation>, found: seq<Reservation>, today: Instant, c: int)
    requires Reservations.Disjoint(table)
    requires forall r :: r in found ==> r in table.Values
    ensures forall r :: r in found && ActiveOn(r, today) && r.catwayNumber == c ==> LastOn(ActiveAt(found, today), c) == Some(r)
  {
    forall r | r in found && ActiveOn(r, today) && r.catwayNumber == c
      ensures LastOn(ActiveAt(found, today), c) == Some(r)
    {
      CurrentIsActive(found, today, c);
      var x := LastOn(ActiveAt(found, today), c).value;
      var i :| i in table && table[i] == r;
      var j :| j in table && table[j] == x;
      assert Reservations.Meets(table[i], table[j].startDate, table[j].endDate);
      assert i == j;
    }
  }

  class CatwayTable {
    var catways: seq<Catway>

    ghost predicate Valid()
      reads this
    {
      UniqueNumbers(catways)
    }

    constructor ()
      ensures Valid() && catways == []
    {
      catways := [];
    }

    /** GET `/`: every catway in store order, each with the active
        reservation of its number, built as the route does, through a
        map filled by a loop in which a later reservation overwrites an
        earlier one. `found` is the reservation collection in store order. */
    method List(found: seq<Reservation>, today: Instant) returns (list: seq<Listed>)
      ensures |list| == |catways|
      ensures forall i :: 0 <= i < |catways| ==>
        list[i].catway == catways[i] && list[i].currentReservation == LastOn(ActiveAt(found, today), catways[i].catwayNumber)
    {
      var active := ActiveAt(found, today);
      var reserved: map<int, Reservation> := map[];
      var k := 0;
      while k < |active|
        invariant 0 <= k <= |active|
        invariant forall c :: Lookup(reserved, c) == LastOn(active[..k], c)
      {
        var next := reserved[active[k].catwayNumber := active[k]];
        forall c ensures Lookup(next, c) == LastOn(active[..k + 1], c) {
          LastOnPrefix(active, k, c);
        }
        reserved := next;
        k := k + 1;
      }
      assert active[..k] == active;
      var cs := catways;
      list := seq(|cs|, i requires 0 <= i < |cs| => Listed(cs[i], Lookup(reserved, cs[i].catwayNumber)));
    }

    /** GET `/:catwayNumber`. */
    function Get(n: int): (reply: Reply<Catway>)
      reads this
      ensures reply.Json? <==> exists i :: 0 <= i < |catways| && catways[i].catwayNumber == n
      ensures reply.Json? ==> reply.status == 200 && reply.body in catways && reply.body.catwayNumber == n
      ensures !reply.Json? ==> reply == Message(404, MsgCatwayNotFound)
    {
      var k := IndexOf(catways, n);
      if k.None? then Message(404, MsgCatwayNotFound) else Json(200, catways[k.value])
    }

    /** POST `/`: 400 when the number is `null`/missing or the type falsy,
        409 when the number exists; otherwise the schema builds the document
        (an unknown type fails its validation) and it is appended. */
    method Create(body: CatwayBody) returns (reply: Reply<Catway>)
      requires Valid()
      modifies this
      ensures Valid()
      ensures Nullish(body.catwayNumber) || !Truthy(body.catwayType) ==> reply == Message(400, MsgCatwayRequired)
      ensures !Nullish(body.catwayNumber) && Truthy(body.catwayType) && IndexOf(old(catways), body.catwayNumber.v).Some?
        ==> reply == Message(409, MsgCatwayExists)
      ensures reply.Json? <==>
        && !Nullish(body.catwayNumber) && Truthy(body.catwayType)
        && IndexOf(old(catways), body.catwayNumber.v).None?
        && Build(body.catwayNumber, body.catwayType, body.catwayState).Success?
      ensures reply.Json? ==>
        && reply.status == 201
        && reply.body == Build(body.catwayNumber, body.catwayType, body.catwayState).value
        && catways == old(catways) + [reply.body]
      ensures && !Nullish(body.catwayNumber) && Truthy(body.catwayType)
              && IndexOf(old(catways), body.catwayNumber.v).None?
              && Build(body.catwayNumber, body.catwayType, body.catwayState).Failure?
        ==> reply == Crash
      ensures !reply.Json? ==> catways == old(catways)
    {
      if Nullish(body.catwayNumber) || !Truthy(body.catwayType) {
        return Message(400, MsgCatwayRequired);
      }
      if IndexOf(catways, body.catwayNumber.v).Some? {
        return Message(409, MsgCatwayExists);
      }
      var built := Build(body.catwayNumber, body.catwayType, body.catwayState);
      if built.Failure? {
        return Crash;
      }
      catways := catways + [built.value];
      reply := Json(201, built.value);
    }

    /** PUT `/:catwayNumber`: only `catwayState` changes (trimmed by the
        schema's setter; no validator runs on this update). */
    method UpdateState(n: int, state: Js<string>) returns (reply: Reply<Catway>)
      requires Valid()
      modifies this
      ensures Valid()
      ensures state.Undefined? ==> reply == Message(400, MsgStateRequired) && catways == old(catways)
      ensures !state.Undefined? && IndexOf(old(catways), n).None? ==> reply == Message(404, MsgCatwayNotFound) && catways == old(catways)
      ensures !state.Undefined? && IndexOf(old(catways), n).Some? ==>
        var k := IndexOf(old(catways), n).value;
        && reply == Json(200, old(catways)[k].(catwayState := NormalizeState(state)))
        && catways == old(catways)[k := reply.body]
    {
      if state.Undefined? {
        return Message(400, MsgStateRequired);
      }
      var k := IndexOf(catways, n);
      if k.None? {
        return Message(404, MsgCatwayNotFound);
      }
      var updated := catways[k.value].(catwayState := NormalizeState(state));
      catways := catways[k.value := updated];
      reply := Json(200, updated);
    }

    /** DELETE `/:catwayNumber`: removes the catway with that number and
        nothing else; the reservations are not touched. */
    method Delete(n: int) returns (reply: Reply<Catway>)
      requires Valid()
      modifies this
      ensures Valid()
      ensures IndexOf(old(catways), n).None? ==> reply == Message(404, MsgCatwayNotFound) && catways == old(catways)
      ensures IndexOf(old(catways), n).Some? ==>
        var k := IndexOf(old(catways), n).value;
        && reply == NoContent
        && catways == old(catways)[..k] + old(catways)[k + 1..]
        && forall i :: 0 <= i < |catways| ==> catways[i].catwayNumber != n
    {
      var k := IndexOf(catways, n);
      if k.None? {
        return Message(404, MsgCatwayNotFound);
      }
      catways := catways[..k.value] + catways[k.value + 1..];
      reply := NoContent;
    }
  }
}
