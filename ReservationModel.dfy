/** The reservation schema: five required fields, names stored trimmed, and a
    pre-save hook that refuses an end date before the start date. */
module ReservationModel {
  import opened Js

  /** A valid JavaScript `Date`, as milliseconds since the epoch. */
  type Instant = int

  datatype Reservation = Reservation(
    catwayNumber: int,
    clientName: string,
    boatName: string,
    startDate: Instant,
    endDate: Instant)

  /** A document as the schema's setters store it: both names trimmed. */
  function Make(catwayNumber: int, clientName: string, boatName: string, startDate: Instant, endDate: Instant): (r: Reservation)
    ensures r.catwayNumber == catwayNumber && r.startDate == startDate && r.endDate == endDate
    ensures r.clientName == [] || (!IsSpace(r.clientName[0]) && !IsSpace(r.clientName[|r.clientName| - 1]))
    ensures r.boatName == [] || (!IsSpace(r.boatName[0]) && !IsSpace(r.boatName[|r.boatName| - 1]))
    ensures r.clientName == [] <==> forall k :: 0 <= k < |clientName| ==> IsSpace(clientName[k])
    ensures r.boatName == [] <==> forall k :: 0 <= k < |boatName| ==> IsSpace(boatName[k])
    ensures exists i, j :: IsTrimCut(clientName, i, j) && r.clientName == clientName[i..j]
    ensures exists i, j :: IsTrimCut(boatName, i, j) && r.boatName == boatName[i..j]
  {
    Reservation(catwayNumber, Trim(clientName), Trim(boatName), startDate, endDate)
  }

  /** Why `save()` refuses a document. */
  datatype SaveError = Required(path: string) | EndBeforeStart

  /** The checks `save()` runs: the `required` validators (an empty string
      fails them; the number and the dates are always present here) and
      then the pre-save hook. */
  function SaveCheck(r: Reservation): (e: Option<SaveError>)
    ensures e.None? <==> r.clientName != "" && r.boatName != "" && r.startDate <= r.endDate
    ensures e == Some(EndBeforeStart) <==> r.clientName != "" && r.boatName != "" && r.endDate < r.startDate
  {
    if r.clientName == "" then Some(Required("clientName"))
    else if r.boatName == "" then Some(Required("boatName"))
    else if r.endDate < r.startDate then Some(EndBeforeStart)
    else None
  }

  /** A name made only of spaces passes a truthiness test but not the schema:
      trimming empties it and the `required` validator refuses it. */
  lemma BlankNameRefused(catwayNumber: int, clientName: string, boatName: string, startDate: Instant, endDate: Instant)
    requires clientName != [] && forall k :: 0 <= k < |clientName| ==> IsSpace(clientName[k])
    ensures SaveCheck(Make(catwayNumber, clientName, boatName, startDate, endDate)) == Some(Required("clientName"))
  {
  }
}
