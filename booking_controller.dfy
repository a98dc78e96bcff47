/** The booking endpoints: public creation of a booking, and the administrator's listing,
    lookup, paid-status toggle and deletions. */
module BookingController {
  import opened Common
  import opened Seqs
  import opened Tokens
  import opened BookingSchema

  /** The body of `POST /api/bookings` and whether a screenshot file came with it. */
  datatype BookingForm = BookingForm(
    name: Option<string>,
    number: Option<string>,
    address: Option<string>,
    package: Option<string>,
    paymentMode: Option<string>,
    hasFile: bool)

  /** Some field the controller insists on is falsy. */
  predicate MissingField(f: BookingForm)
  {
    !Present(f.name) || !Present(f.number) || !Present(f.address)
    || !Present(f.package) || !Present(f.paymentMode)
  }

  /** The screenshot is uploaded only for an online booking that came with a file. */
  predicate WantsUpload(f: BookingForm)
  {
    f.paymentMode == Some("online") && f.hasFile
  }

  /** The enum paths that only schema validation checks. */
  predicate InEnums(f: BookingForm)
    requires !MissingField(f)
  {
    f.package.value in Packages && f.paymentMode.value in PaymentModes
  }

  /** The document `createBooking` hands to `Booking.create`. */
  function Draft(f: BookingForm, shot: Option<Upload>, token: string): (b: Booking)
    requires !MissingField(f)
    ensures b.token == token && b.name == f.name.value && b.number == f.number.value
    ensures b.address == f.address.value && b.package == f.package.value
    ensures b.paymentMode == f.paymentMode.value
    ensures b.isPaid <==> f.paymentMode.value == "online"
    ensures b.screenshotUrl.Some? <==> shot.Some?
    ensures shot.Some? ==> b.screenshotUrl == Some(shot.value.secureUrl)
    ensures shot.Some? ==> b.screenshotPublicId == Some(shot.value.publicId)
    ensures shot.None? ==> b.screenshotPublicId == None
    ensures b.razorpayOrderId == None && b.razorpayPaymentId == None
    ensures b.gstAmount == 0 && b.totalAmountPaid == None
    ensures ValidBooking(b) <==> token != "" && InEnums(f)
  {
    var mode := f.paymentMode.value;
    WithDefaults(token, f.name.value, f.number.value, f.address.value, f.package.value, mode)
      .(isPaid := mode == "online",
        screenshotUrl := if shot.Some? then Some(shot.value.secureUrl) else None,
        screenshotPublicId := if shot.Some? then Some(shot.value.publicId) else None)
  }

  /** `createBooking`. `upload` is the blob store's answer if it is asked (`None`: it threw);
      `draws` feed the token generator. */
  method CreateBooking(store: BookingCollection, f: BookingForm, upload: Option<Upload>,
                       draws: seq<seq<Roll>>, now: nat)
    returns (status: int, booking: Option<Booking>)
    requires store.Valid()
    requires forall k :: 0 <= k < |draws| ==> IsDraw(draws[k])
    requires exists k :: 0 <= k < |draws| && !store.TokenTaken(Spell(draws[k]))
    modifies store
    ensures store.Valid()
    ensures status == BadRequest <==> MissingField(f)
    ensures status == ServerError <==>
      !MissingField(f) && ((WantsUpload(f) && upload.None?) || !InEnums(f))
    ensures status == Created <==> booking.Some?
    ensures status == BadRequest || status == ServerError || status == Created
    ensures booking.None? ==> store.docs == old(store.docs) && store.nextId == old(store.nextId)
    ensures booking.Some? ==>
      && !MissingField(f)
      && IsToken(booking.value.token)
      && booking.value.token !in old(TokensOf(store.docs))
      && booking.value == Draft(f, if WantsUpload(f) then upload else None, booking.value.token)
                          .(id := old(store.nextId), createdAt := now, updatedAt := now)
      && store.docs == old(store.docs) + [booking.value]
  {
    if MissingField(f) {
      return BadRequest, None;
    }
    var shot: Option<Upload> := None;
    if WantsUpload(f) {
      if upload.None? {
        return ServerError, None;
      }
      shot := upload;
    }
    var token, _ := store.UniqueToken(draws);
    booking := store.Create(Draft(f, shot, token), now);
    status := if booking.Some? then Created else ServerError;
  }

  function CreatedAt(b: Booking): int
  {
    b.createdAt
  }

  /** `getAllBookings`: every stored booking, newest first. */
  function GetAllBookings(store: BookingCollection): (r: seq<Booking>)
    reads store
    ensures SortedDesc(r, CreatedAt)
    ensures multiset(r) == multiset(store.docs)
  {
    SortDesc(store.docs, CreatedAt)
  }

  /** `getBookingById`: the booking with that `_id` (200), or none (404). */
  function GetBookingById(store: BookingCollection, id: nat): (r: Option<Booking>)
    reads store
    ensures r.Some? <==> exists b :: b in store.docs && b.id == id
    ensures r.Some? ==> r.value in store.docs && r.value.id == id
  {
    match IndexOfId(store.docs, id)
    case None => None
    case Some(k) => Some(store.docs[k])
  }

  /** The paid flag negated; saving a modified document refreshes `updatedAt`. */
  function Flip(b: Booking, now: nat): (r: Booking)
    ensures r.isPaid != b.isPaid && r.updatedAt == now
    ensures r.(isPaid := b.isPaid, updatedAt := b.updatedAt) == b
  {
    b.(isPaid := !b.isPaid, updatedAt := now)
  }

  /** `togglePaidStatus`: 404 if no booking has that `_id`, else that booking's paid flag is
      negated and nothing else in the store changes. */
  method TogglePaidStatus(store: BookingCollection, id: nat, now: nat)
    returns (status: int, updated: Option<Booking>)
    requires store.Valid()
    modifies store
    ensures store.Valid() && store.nextId == old(store.nextId)
    ensures status == NotFound <==> IndexOfId(old(store.docs), id).None?
    ensures status == NotFound ==> store.docs == old(store.docs) && updated == None
    ensures status == Ok ==>
      var k := IndexOfId(old(store.docs), id).value;
      && updated == Some(Flip(old(store.docs)[k], now))
      && store.docs == old(store.docs)[k := Flip(old(store.docs)[k], now)]
    ensures status == Ok || status == NotFound
  {
    match IndexOfId(store.docs, id)
    case None =>
      status, updated := NotFound, None;
    case Some(k) =>
      var b := Flip(store.docs[k], now);
      ToggleKeepsWellFormed(store.docs, store.nextId, k, now);
      store.docs := store.docs[k := b];
      status, updated := Ok, Some(b);
  }

  /** Flipping the paid flag keeps the collection's invariant. */
  lemma ToggleKeepsWellFormed(docs: seq<Booking>, nextId: nat, k: nat, now: nat)
    requires WellFormed(docs, nextId) && k < |docs|
    ensures WellFormed(docs[k := Flip(docs[k], now)], nextId)
  {
    var docs' := docs[k := Flip(docs[k], now)];
    forall b | b in docs'
      ensures b.id < nextId && ValidBooking(b)
    {
      var i :| 0 <= i < |docs'| && docs'[i] == b;
      assert docs[i] in docs;
    }
  }

  /** Toggling twice restores the paid flag and every other field but `updatedAt`. */
  lemma ToggleTwiceRestores(docs: seq<Booking>, k: nat, t1: nat, t2: nat)
    requires k < |docs|
    ensures var once := docs[k := Flip(docs[k], t1)];
            once[k := Flip(once[k], t2)] == docs[k := docs[k].(updatedAt := t2)]
  {
  }

  function HasId(id: nat): Booking -> bool
  {
    (b: Booking) => b.id == id
  }

  function HasOtherId(id: nat): Booking -> bool
  {
    (b: Booking) => b.id != id
  }

  /** With distinct ids, at most one booking carries a given id. */
  lemma {:induction false} IdCountAtMostOne(docs: seq<Booking>, id: nat)
    requires forall i, j :: 0 <= i < j < |docs| ==> docs[i].id != docs[j].id
    ensures Count(docs, HasId(id)) == if exists b :: b in docs && b.id == id then 1 else 0
  {
    if docs != [] {
      IdCountAtMostOne(docs[1..], id);
      if docs[0].id == id {
        forall b | b in docs[1..] ensures b.id != id {
          var j :| 0 <= j < |docs[1..]| && docs[1..][j] == b;
          assert docs[j + 1] == b;
        }
      } else {
        assert forall b :: b in docs && b.id == id ==> b in docs[1..];
      }
    }
  }

  /** Deleting by `_id` removes exactly the one booking that has it. */
  lemma DeleteRemovesExactlyOne(docs: seq<Booking>, nextId: nat, id: nat)
    requires WellFormed(docs, nextId)
    requires exists b :: b in docs && b.id == id
    ensures |Filter(docs, HasOtherId(id))| == |docs| - 1
    ensures forall b :: b in Filter(docs, HasOtherId(id)) <==> b in docs && b.id != id
    ensures multiset(Filter(docs, HasOtherId(id))) + multiset(Filter(docs, HasId(id))) == multiset(docs)
  {
    IdCountAtMostOne(docs, id);
    FilterSplits(docs, HasId(id), HasOtherId(id));
  }

  /** `deleteBooking`: 404 if no booking has that `_id`; otherwise that booking alone is
      removed, after asking the blob store to release its screenshot if it has a public id.
      A failure of that release is logged and does not stop the deletion. */
  method DeleteBooking(store: BookingCollection, id: nat)
    returns (status: int, released: Option<string>)
    requires store.Valid()
    modifies store
    ensures store.Valid() && store.nextId == old(store.nextId)
    ensures status == NotFound <==> forall b :: b in old(store.docs) ==> b.id != id
    ensures status == NotFound ==> store.docs == old(store.docs) && released == None
    ensures status == Ok ==>
      var target := old(store.docs)[IndexOfId(old(store.docs), id).value];
      && store.docs == Filter(old(store.docs), HasOtherId(id))
      && |store.docs| == |old(store.docs)| - 1
      && released == (if Present(target.screenshotPublicId) then target.screenshotPublicId else None)
    ensures status == Ok || status == NotFound
  {
    match IndexOfId(store.docs, id)
    case None =>
      status, released := NotFound, None;
    case Some(k) =>
      var target := store.docs[k];
      released := if Present(target.screenshotPublicId) then target.screenshotPublicId else None;
      DeleteRemovesExactlyOne(store.docs, store.nextId, id);
      FilterKeepsWellFormed(store.docs, store.nextId, HasOtherId(id));
      store.docs := Filter(store.docs, HasOtherId(id));
      status := Ok;
  }

  /** The `for ... of` loop over bookings with a screenshot: one release request per booking,
      in order; each failure is logged and the loop goes on. */
  method ReleaseScreenshots(targets: seq<Booking>) returns (released: seq<string>)
    requires forall i :: 0 <= i < |targets| ==> targets[i].screenshotPublicId.Some?
    ensures |released| == |targets|
    ensures forall i :: 0 <= i < |targets| ==> released[i] == targets[i].screenshotPublicId.value
  {
    released := [];
    for i := 0 to |targets|
      invariant |released| == i
      invariant forall j :: 0 <= j < i ==> released[j] == targets[j].screenshotPublicId.value
    {
      released := released + [targets[i].screenshotPublicId.value];
    }
  }

  /** The query `{ screenshotPublicId: { $ne: null } }`. */
  function HasScreenshot(): Booking -> bool
  {
    (b: Booking) => b.screenshotPublicId.Some?
  }

  /** `deleteAllBookings`: release every screenshot, then empty the store; the reported
      count is the number of bookings there were. */
  method DeleteAllBookings(store: BookingCollection) returns (deleted: nat, released: seq<string>)
    requires store.Valid()
    modifies store
    ensures store.Valid() && store.nextId == old(store.nextId)
    ensures store.docs == []
    ensures deleted == |old(store.docs)|
    ensures var shots := Filter(old(store.docs), HasScreenshot());
      |released| == |shots| &&
      forall i :: 0 <= i < |shots| ==> shots[i].screenshotPublicId.Some? && released[i] == shots[i].screenshotPublicId.value
  {
    var shots := Filter(store.docs, HasScreenshot());
    assert forall i :: 0 <= i < |shots| ==> shots[i] in shots;
    released := ReleaseScreenshots(shots);
    deleted := |store.docs|;
    store.docs := [];
  }

  function HasPackage(package: string): Booking -> bool
  {
    (b: Booking) => b.package == package
  }

  function HasOtherPackage(package: string): Booking -> bool
  {
    (b: Booking) => b.package != package
  }

  /** The query `{ package: packageType, screenshotPublicId: { $ne: null } }`. */
  function HasPackageAndScreenshot(package: string): Booking -> bool
  {
    (b: Booking) => b.package == package && b.screenshotPublicId.Some?
  }

  /** `deleteBookingsByPackage`: release the screenshots of that package's bookings, then
      remove exactly the bookings of that package; the count is how many were removed. */
  method DeleteBookingsByPackage(store: BookingCollection, package: string)
    returns (deleted: nat, released: seq<string>)
    requires store.Valid()
    modifies store
    ensures store.Valid() && store.nextId == old(store.nextId)
    ensures store.docs == Filter(old(store.docs), HasOtherPackage(package))
    ensures forall b :: b in store.docs <==> b in old(store.docs) && b.package != package
    ensures deleted == Count(old(store.docs), HasPackage(package))
    ensures deleted == |old(store.docs)| - |store.docs|
    ensures multiset(store.docs) + multiset(Filter(old(store.docs), HasPackage(package)))
            == multiset(old(store.docs))
    ensures var shots := Filter(old(store.docs), HasPackageAndScreenshot(package));
      |released| == |shots| &&
      forall i :: 0 <= i < |shots| ==> shots[i].screenshotPublicId.Some? && released[i] == shots[i].screenshotPublicId.value
  {
    var shots := Filter(store.docs, HasPackageAndScreenshot(package));
    assert forall i :: 0 <= i < |shots| ==> shots[i] in shots;
    released := ReleaseScreenshots(shots);
    FilterSplits(store.docs, HasPackage(package), HasOtherPackage(package));
    FilterKeepsWellFormed(store.docs, store.nextId, HasOtherPackage(package));
    var before := |store.docs|;
    store.docs := Filter(store.docs, HasOtherPackage(package));
    deleted := before - |store.docs|;
  }
}
