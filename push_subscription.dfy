/** The push-subscription collection: the schema's required fields and
    defaults, and the unique compound index on (userId, endpoint). The
    collection is a map keyed by that pair, so it can hold at most one record
    per pair; inserting a document validates it, fills its defaults, and is
    refused when its pair is already taken. */
module PushSubscriptionStore {
  import opened JsValues

  /** A user's ObjectId, taken as an opaque number. */
  type UserId = nat
  /** A timestamp in milliseconds (`Date.now`). */
  type Timestamp = int

  datatype Keys = Keys(p256dh: string, auth: string)

  /** A stored subscription, every field present. */
  datatype PushSubscription = PushSubscription(
    userId: UserId,
    endpoint: string,
    keys: Keys,
    enabled: bool,
    createdAt: Timestamp,
    updatedAt: Timestamp)

  /** A document as it is handed to the model for creation: any field may be
      missing. */
  datatype NewSubscription = NewSubscription(
    userId: Option<UserId>,
    endpoint: Option<string>,
    p256dh: Option<string>,
    auth: Option<string>,
    enabled: Option<bool>,
    createdAt: Option<Timestamp>,
    updatedAt: Option<Timestamp>)

  /** The required paths of the schema. */
  datatype RequiredPath = UserIdPath | EndpointPath | P256dhPath | AuthPath

  /** A validation error lists every required path that failed; a duplicate
      key error is the unique index refusing the pair. */
  datatype InsertError = ValidationError(paths: set<RequiredPath>) | DuplicateKey

  datatype Result<+T> = Ok(value: T) | Err(error: InsertError)

  /** The required paths that are missing. A required string must also be
      non-empty. */
  function MissingPaths(d: NewSubscription): (m: set<RequiredPath>)
    ensures UserIdPath in m <==> d.userId.None?
    ensures EndpointPath in m <==> !Truthy(d.endpoint)
    ensures P256dhPath in m <==> !Truthy(d.p256dh)
    ensures AuthPath in m <==> !Truthy(d.auth)
  {
    (if d.userId.None? then {UserIdPath} else {}) +
    (if Truthy(d.endpoint) then {} else {EndpointPath}) +
    (if Truthy(d.p256dh) then {} else {P256dhPath}) +
    (if Truthy(d.auth) then {} else {AuthPath})
  }

  /** Validating a document and applying the defaults, at time `now`. */
  function Validate(d: NewSubscription, now: Timestamp): (r: Result<PushSubscription>)
    ensures r.Ok? <==> d.userId.Some? && Truthy(d.endpoint) && Truthy(d.p256dh) && Truthy(d.auth)
    ensures r.Err? ==> r.error == ValidationError(MissingPaths(d)) && MissingPaths(d) != {}
    ensures r.Ok? ==> && r.value.userId == d.userId.value
                      && r.value.endpoint == d.endpoint.value
                      && r.value.keys == Keys(d.p256dh.value, d.auth.value)
    // defaults: enabled, and both timestamps at the creation time
    ensures r.Ok? ==> r.value.enabled == (d.enabled != Some(false))
    ensures r.Ok? ==> r.value.createdAt == d.createdAt.GetOr(now) && r.value.updatedAt == d.updatedAt.GetOr(now)
  {
    var missing := MissingPaths(d);
    if missing != {} then Err(ValidationError(missing))
    else Ok(PushSubscription(d.userId.value, d.endpoint.value, Keys(d.p256dh.value, d.auth.value),
                             d.enabled.GetOr(true), d.createdAt.GetOr(now), d.updatedAt.GetOr(now)))
  }

  /** The pair the unique index is built on. */
  datatype IndexKey = IndexKey(userId: UserId, endpoint: string)

  function KeyOf(s: PushSubscription): IndexKey {
    IndexKey(s.userId, s.endpoint)
  }

  type Collection = map<IndexKey, PushSubscription>

  /** Every record is filed under its own pair. */
  predicate Indexed(c: Collection) {
    forall k :: k in c ==> KeyOf(c[k]) == k
  }

  /** The collection after inserting `d`, and the insert's result. */
  datatype InsertResult = InsertResult(collection: Collection, result: Result<PushSubscription>)

  function Insert(c: Collection, d: NewSubscription, now: Timestamp): (i: InsertResult)
    ensures Indexed(c) ==> Indexed(i.collection)
    // a refused insert changes nothing
    ensures i.result.Err? ==> i.collection == c
    // an invalid document is refused with the paths that failed
    ensures Validate(d, now).Err? ==> i.result == Validate(d, now)
    // the index refuses exactly a valid document whose pair is taken
    ensures i.result == Err(DuplicateKey) <==> Validate(d, now).Ok? && KeyOf(Validate(d, now).value) in c
    ensures i.result.Ok? ==> i.result == Validate(d, now)
    ensures i.result.Ok? ==> KeyOf(i.result.value) !in c &&
                             i.collection == c[KeyOf(i.result.value) := i.result.value]
    ensures |i.collection| == |c| + (if i.result.Ok? then 1 else 0)
  {
    match Validate(d, now)
    case Err(e) => InsertResult(c, Err(e))
    case Ok(s) =>
      if KeyOf(s) in c then InsertResult(c, Err(DuplicateKey))
      else InsertResult(c[KeyOf(s) := s], Ok(s))
  }

  /** A second insert for a pair that was just inserted is refused, and the
      collection keeps the first record. */
  lemma DuplicatePairRefused(c: Collection, d1: NewSubscription, d2: NewSubscription, t1: Timestamp, t2: Timestamp)
    requires Insert(c, d1, t1).result.Ok?
    requires d2.userId == d1.userId && d2.endpoint == d1.endpoint && Truthy(d2.p256dh) && Truthy(d2.auth)
    ensures var first := Insert(c, d1, t1);
            var second := Insert(first.collection, d2, t2);
            && second.result == Err(DuplicateKey)
            && second.collection == first.collection
            && second.collection[KeyOf(first.result.value)] == first.result.value
  {
  }

  /** Uniqueness is on the pair, not the endpoint: the same endpoint can be
      stored for two different users. */
  lemma SameEndpointForTwoUsers(c: Collection, d1: NewSubscription, d2: NewSubscription, t1: Timestamp, t2: Timestamp)
    requires Validate(d1, t1).Ok? && Validate(d2, t2).Ok?
    requires d1.endpoint == d2.endpoint && d1.userId != d2.userId
    requires KeyOf(Validate(d1, t1).value) !in c && KeyOf(Validate(d2, t2).value) !in c
    ensures var first := Insert(c, d1, t1);
            var second := Insert(first.collection, d2, t2);
            && first.result.Ok? && second.result.Ok?
            && |second.collection| == |c| + 2
  {
  }

  /** The pushSubscription model's collection. */
  class SubscriptionCollection {
    var records: Collection

    ghost predicate Valid()
      reads this
    {
      Indexed(records)
    }

    constructor ()
      ensures Valid() && records == map[]
    {
      records := map[];
    }

    /** Creating a document: validation, defaults, then the unique index. */
    method Create(d: NewSubscription, now: Timestamp) returns (r: Result<PushSubscription>)
      requires Valid()
      modifies this
      ensures Valid()
      ensures InsertResult(records, r) == Insert(old(records), d, now)
    {
      var missing := MissingPaths(d);
      if missing != {} {
        return Err(ValidationError(missing));
      }
      var s := PushSubscription(d.userId.value, d.endpoint.value, Keys(d.p256dh.value, d.auth.value),
                                d.enabled.GetOr(true), d.createdAt.GetOr(now), d.updatedAt.GetOr(now));
      if KeyOf(s) in records {
        return Err(DuplicateKey);
      }
      records := records[KeyOf(s) := s];
      r := Ok(s);
    }
  }
}
