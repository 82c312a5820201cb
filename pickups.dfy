/**
 * The pickup document: its status and waste-type enumerations, its field defaults, the
 * eco-point reward rule and the sequential pickup code written by the pre-save hook.
 */
module Pickups {
  import opened Wrappers
  import opened Numbers

  /** A document key (a Mongo ObjectId). */
  type ObjectId = nat

  datatype Status = Pending | Scheduled | InProgress | Completed | Cancelled

  /** The schema's enumeration strings. */
  function StatusName(s: Status): string {
    match s
    case Pending => "pending"
    case Scheduled => "scheduled"
    case InProgress => "in-progress"
    case Completed => "completed"
    case Cancelled => "cancelled"
  }

  /** The enumeration value a request string names, if it names one. */
  function ParseStatus(t: string): (r: Option<Status>)
    ensures r.Some? ==> StatusName(r.value) == t
    ensures forall s :: StatusName(s) == t ==> r == Some(s)
  {
    if t == "pending" then Some(Pending)
    else if t == "scheduled" then Some(Scheduled)
    else if t == "in-progress" then Some(InProgress)
    else if t == "completed" then Some(Completed)
    else if t == "cancelled" then Some(Cancelled)
    else None
  }

  /**
   * The waste category. A stored pickup holds one of the four enumeration values; `Other`
   * is a string outside the enumeration, which a request can put on the document before the
   * schema refuses it on save.
   */
  datatype WasteType = Recyclable | Organic | Ewaste | Hazardous | Other(name: string)

  function WasteTypeName(w: WasteType): string {
    match w
    case Recyclable => "recyclable"
    case Organic => "organic"
    case Ewaste => "ewaste"
    case Hazardous => "hazardous"
    case Other(name) => name
  }

  function ParseWasteType(t: string): (w: WasteType)
    ensures WasteTypeName(w) == t
    ensures w.Other? <==> t !in {"recyclable", "organic", "ewaste", "hazardous"}
  {
    if t == "recyclable" then Recyclable
    else if t == "organic" then Organic
    else if t == "ewaste" then Ewaste
    else if t == "hazardous" then Hazardous
    else Other(t)
  }

  /**
   * Eco points per kilogram; a category outside the table earns the default 5. The table is a
   * plain object, so a name it inherits from `Object.prototype` (see `InheritedKey`) finds a
   * function or an object instead of falling back to 5; `EcoPoints` models that case.
   */
  function Rate(w: WasteType): nat {
    match w
    case Recyclable => 10
    case Organic => 5
    case Ewaste => 20
    case Hazardous => 15
    case Other(_) => 5
  }

  /** `calculateEcoPoints`: the weight times the category's rate, rounded to the nearest integer. */
  function Points(w: WasteType, weight: real): (r: int)
    ensures weight * Rate(w) as real - 0.5 < r as real <= weight * Rate(w) as real + 0.5
    ensures weight >= 0.0 ==> r >= 0
  {
    Round(weight * Rate(w) as real)
  }

  /** The property names every plain object inherits from `Object.prototype`. */
  predicate InheritedKey(name: string) {
    name in {"constructor", "__proto__", "toString", "toLocaleString", "valueOf", "hasOwnProperty",
             "isPrototypeOf", "propertyIsEnumerable", "__defineGetter__", "__defineSetter__",
             "__lookupGetter__", "__lookupSetter__"}
  }

  /**
   * `calculateEcoPoints` with its NaN made explicit: for an inherited name the table lookup is
   * a truthy non-number, the product is NaN, and the result is `None`; otherwise it is `Points`.
   */
  function EcoPoints(w: WasteType, weight: real): (r: Option<int>)
    ensures r.None? <==> w.Other? && InheritedKey(w.name)
    ensures r.Some? ==> r.value == Points(w, weight)
  {
    if w.Other? && InheritedKey(w.name) then None else Some(Points(w, weight))
  }

  /** A waste type from a request string gives NaN points exactly for the inherited names. */
  lemma EcoPointsOfRequestName(t: string, weight: real)
    ensures EcoPoints(ParseWasteType(t), weight).None? <==> InheritedKey(t)
    ensures !InheritedKey(t) ==> EcoPoints(ParseWasteType(t), weight) == Some(Points(ParseWasteType(t), weight))
  {
  }

  /** The two worked examples: 5.2 kg recyclable earns 52, 3.1 kg organic earns round(15.5) = 16. */
  lemma PointsExamples()
    ensures Points(Recyclable, 5.2) == 52
    ensures Points(Organic, 3.1) == 16
    ensures Points(Hazardous, 0.0) == 0
  {
  }

  datatype Pickup = Pickup(
    owner: ObjectId,
    wasteType: WasteType,
    date: int,
    time: string,
    address: string,
    estimatedWeight: real,
    actualWeight: real,
    notes: string,
    adminNotes: string,
    status: Status,
    pickupId: string,   // "" until the pre-save hook assigns one
    ecoPointsEarned: int,
    createdAt: int,
    completedAt: Option<int>)

  /** A new document: the given fields, everything else at its schema default. */
  function NewPickup(owner: ObjectId, wasteType: WasteType, date: int, time: string, address: string,
                     estimatedWeight: real, notes: Option<string>, createdAt: int): (p: Pickup)
    ensures p.status == Pending && p.pickupId == "" && p.completedAt == None
    ensures p.actualWeight == 0.0 && p.ecoPointsEarned == 0 && p.adminNotes == ""
    ensures p.notes == notes.GetOr("")
  {
    Pickup(owner, wasteType, date, time, address, estimatedWeight, 0.0, notes.GetOr(""), "",
           Pending, "", 0, createdAt, None)
  }

  /** The schema's validators: the waste type is in the enumeration and the required strings are set. */
  predicate SchemaValid(p: Pickup) {
    !p.wasteType.Other? && p.time != "" && p.address != ""
  }

  /** `#ECO-<year>-<count + 1>`, the ordinal left-padded with '0' to at least three digits. */
  function FormatPickupId(year: nat, count: nat): string {
    "#ECO-" + NatToString(year) + "-" + PadStart(NatToString(count + 1), 3, '0')
  }

  lemma FormatPickupIdExample()
    ensures FormatPickupId(2024, 2) == "#ECO-2024-003"
  {
    assert NatToString(2024) == "2024" by {
      assert NatToString(2) == "2";
      assert NatToString(20) == "20";
      assert NatToString(202) == "202";
    }
  }

  /** The position of the first `c` in `s`. */
  function IndexOf(s: string, c: char): (r: Option<nat>)
    ensures r.Some? ==> r.value < |s| && s[r.value] == c && c !in s[..r.value]
    ensures r.None? ==> c !in s
  {
    if s == [] then None
    else if s[0] == c then Some(0)
    else
      match IndexOf(s[1..], c)
      case None => None
      case Some(k) => assert s[..k + 1] == [s[0]] + s[1..][..k]; Some(k + 1)
  }

  /** Reads a pickup code back as its year and ordinal; the partner of FormatPickupId. */
  function ParsePickupId(id: string): Option<(nat, nat)> {
    if !("#ECO-" <= id) then None
    else
      var rest := id[5..];
      match IndexOf(rest, '-')
      case None => None
      case Some(k) =>
        var year := rest[..k];
        var ordinal := rest[k + 1..];
        if year == [] || ordinal == [] || !AllDigits(year) || !AllDigits(ordinal) then None
        else Some((ParseDigits(year), ParseDigits(ordinal)))
  }

  lemma {:induction false} FirstDashAfterDigits(y: string, o: string)
    requires AllDigits(y)
    ensures IndexOf(y + "-" + o, '-') == Some(|y|)
    decreases |y|
  {
    if y != [] {
      assert (y + "-" + o)[1..] == y[1..] + "-" + o;
      FirstDashAfterDigits(y[1..], o);
    }
  }

  /** A padded ordinal reads back as the number it was made from. */
  lemma PaddedOrdinalValue(n: nat)
    ensures AllDigits(PadStart(NatToString(n), 3, '0'))
    ensures ParseDigits(PadStart(NatToString(n), 3, '0')) == n
  {
    var digits := NatToString(n);
    var zeros := Max(|digits|, 3) - |digits|;
    assert PadStart(digits, 3, '0') == Repeat('0', zeros) + digits;
    ParseIgnoresLeadingZeros(zeros, digits);
    ParseNatToString(n);
  }

  /** A code made of two non-empty digit strings reads back as their values. */
  lemma ParseCodeParts(y: string, o: string)
    requires y != [] && o != [] && AllDigits(y) && AllDigits(o)
    ensures ParsePickupId("#ECO-" + y + "-" + o) == Some((ParseDigits(y), ParseDigits(o)))
  {
    var id := "#ECO-" + y + "-" + o;
    var rest := y + "-" + o;
    assert "#ECO-" <= id && id[5..] == rest;
    FirstDashAfterDigits(y, o);
    assert rest[..|y|] == y && rest[|y| + 1..] == o;
  }

  /** A code reads back as the year and the ordinal `count + 1` it was made from. */
  lemma PickupIdRoundTrip(year: nat, count: nat)
    ensures ParsePickupId(FormatPickupId(year, count)) == Some((year, count + 1))
  {
    var y := NatToString(year);
    var o := PadStart(NatToString(count + 1), 3, '0');
    PaddedOrdinalValue(count + 1);
    ParseNatToString(year);
    ParseCodeParts(y, o);
  }

  /** Different years or counts never give the same code. */
  lemma PickupIdInjective(y1: nat, c1: nat, y2: nat, c2: nat)
    requires FormatPickupId(y1, c1) == FormatPickupId(y2, c2)
    ensures y1 == y2 && c1 == c2
  {
    PickupIdRoundTrip(y1, c1);
    PickupIdRoundTrip(y2, c2);
  }

  /** The pre-save hook: a pickup without a code gets one; a code once set is never replaced. */
  function PreSave(p: Pickup, year: nat, count: nat): (r: Pickup)
    ensures r.pickupId != ""
    ensures p.pickupId != "" ==> r == p
    ensures r == p.(pickupId := r.pickupId)
    ensures p.pickupId == "" ==> r.pickupId == FormatPickupId(year, count)
  {
    if p.pickupId == "" then p.(pickupId := FormatPickupId(year, count))
    else p
  }
}
