/** The `Booking` mongoose model: the document shape, the schema's validation rules and
    defaults, and the collection the controllers read and write. */
module BookingSchema {
  import opened Common
  import opened Seqs
  import opened Tokens

  /** The `enum` of the `package` path. */
  const Packages: seq<string> := ["499", "999"]
  /** The `enum` of the `paymentMode` path. */
  const PaymentModes: seq<string> := ["cash", "online"]

  /** One stored booking. `id` is mongo's `_id`; `createdAt` and `updatedAt` come from
      the schema's `timestamps` option; `None` stands for a stored `null`. */
  datatype Booking = Booking(
    id: nat,
    token: string,
    name: string,
    number: string,
    address: string,
    package: string,
    paymentMode: string,
    isPaid: bool,
    screenshotUrl: Option<string>,
    screenshotPublicId: Option<string>,
    razorpayOrderId: Option<string>,
    razorpayPaymentId: Option<string>,
    gstAmount: int,
    totalAmountPaid: Option<int>,
    createdAt: nat,
    updatedAt: nat)

  /** What schema validation accepts: the required String paths are non-empty and the
      two enum paths hold one of their listed values. */
  predicate ValidBooking(b: Booking)
  {
    && b.token != ""
    && b.name != ""
    && b.number != ""
    && b.address != ""
    && b.package in Packages
    && b.paymentMode in PaymentModes
  }

  /** The document `Booking.create` builds from the paths it is given, with the schema's
      defaults for every other path; `_id` and the timestamps are set when it is stored. */
  function WithDefaults(token: string, name: string, number: string, address: string,
                        package: string, paymentMode: string): (b: Booking)
    ensures b.token == token && b.name == name && b.number == number && b.address == address
    ensures b.package == package && b.paymentMode == paymentMode
    ensures !b.isPaid
    ensures b.screenshotUrl == None && b.screenshotPublicId == None
    ensures b.razorpayOrderId == None && b.razorpayPaymentId == None
    ensures b.gstAmount == 0 && b.totalAmountPaid == None
  {
    Booking(0, token, name, number, address, package, paymentMode, false,
            None, None, None, None, 0, None, 0, 0)
  }

  /** Tokens held by the stored bookings. */
  function TokensOf(docs: seq<Booking>): (ts: set<string>)
    ensures forall b :: b in docs ==> b.token in ts
    ensures forall t :: t in ts ==> exists b :: b in docs && b.token == t
  {
    set b | b in docs :: b.token
  }

  /** The collection's invariant: the `unique` index on `token`, distinct `_id`s below the
      next id to hand out, and every stored document passed validation. */
  predicate WellFormed(docs: seq<Booking>, nextId: nat)
  {
    && (forall i, j :: 0 <= i < j < |docs| ==> docs[i].token != docs[j].token)
    && (forall i, j :: 0 <= i < j < |docs| ==> docs[i].id != docs[j].id)
    && (forall b :: b in docs ==> b.id < nextId && ValidBooking(b))
  }

  /** The tokens of a non-empty collection: the first booking's and the rest's. */
  lemma TokensOfCons(docs: seq<Booking>)
    requires docs != []
    ensures TokensOf(docs) == {docs[0].token} + TokensOf(docs[1..])
  {
    forall t | t in TokensOf(docs) ensures t == docs[0].token || t in TokensOf(docs[1..]) {
      var b :| b in docs && b.token == t;
      if b != docs[0] {
        var i :| 0 <= i < |docs| && docs[i] == b;
        assert docs[1..][i - 1] == b;
      }
    }
  }

  /** The `unique` index on `token`: in a well-formed collection each token names exactly
      one booking, so there are as many distinct tokens as stored documents. */
  lemma {:induction false} TokensIdentifyBookings(docs: seq<Booking>, nextId: nat)
    requires WellFormed(docs, nextId)
    ensures |TokensOf(docs)| == |docs|
  {
    if docs != [] {
      var rest := docs[1..];
      assert WellFormed(rest, nextId);
      TokensIdentifyBookings(rest, nextId);
      assert forall j :: 0 <= j < |rest| ==> rest[j] == docs[j + 1];
      assert docs[0].token !in TokensOf(rest);
      TokensOfCons(docs);
    }
  }

  /** Storing a valid booking under a fresh token and the next id keeps the invariant. */
  lemma AppendKeepsWellFormed(docs: seq<Booking>, nextId: nat, b: Booking)
    requires WellFormed(docs, nextId)
    requires ValidBooking(b) && b.token !in TokensOf(docs) && b.id == nextId
    ensures WellFormed(docs + [b], nextId + 1)
  {
    var docs' := docs + [b];
    forall i, j | 0 <= i < j < |docs'|
      ensures docs'[i].token != docs'[j].token && docs'[i].id != docs'[j].id
    {
      if j == |docs| {
        assert docs'[i] in docs;
      }
    }
  }

  /** Deleting any selection of bookings keeps the invariant. */
  lemma FilterKeepsWellFormed(docs: seq<Booking>, nextId: nat, p: Booking -> bool)
    requires WellFormed(docs, nextId)
    ensures WellFormed(Filter(docs, p), nextId)
  {
    FilterKeepsKeysDistinct(docs, p, (b: Booking) => b.token);
    FilterKeepsKeysDistinct(docs, p, (b: Booking) => b.id);
  }

  /** Position of the booking with `_id` `id` (`Booking.findById`), if there is one. */
  function IndexOfId(docs: seq<Booking>, id: nat): (r: Option<nat>)
    ensures r.Some? ==> r.value < |docs| && docs[r.value].id == id
    ensures r.None? ==> forall b :: b in docs ==> b.id != id
  {
    if docs == [] then None
    else if docs[0].id == id then Some(0)
    else
      match IndexOfId(docs[1..], id)
      case None => None
      case Some(k) => Some(k + 1)
  }

  /** The stored bookings. */
  class BookingCollection {
    var docs: seq<Booking>
    var nextId: nat

    ghost predicate Valid()
      reads this
    {
      WellFormed(docs, nextId)
    }

    constructor ()
      ensures Valid() && docs == []
    {
      docs := [];
      nextId := 0;
    }

    /** `Booking.findOne({ token })` finds a document. */
    predicate TokenTaken(t: string)
      reads this
    {
      t in TokensOf(docs)
    }

    /** The retry loop of both controllers: draw a token, look it up, and draw again while
        it is taken. `draws` are the successive outcomes of the random source. */
    method UniqueToken(draws: seq<seq<Roll>>) returns (token: string, attempts: nat)
      requires forall k :: 0 <= k < |draws| ==> IsDraw(draws[k])
      requires exists k :: 0 <= k < |draws| && !TokenTaken(Spell(draws[k]))
      ensures 1 <= attempts <= |draws|
      ensures token == Spell(draws[attempts - 1]) && IsToken(token)
      ensures !TokenTaken(token)
      ensures forall k :: 0 <= k < attempts - 1 ==> TokenTaken(Spell(draws[k]))
    {
      var k := 0;
      token := GenerateToken(draws[0]);
      var tokenExists := TokenTaken(token);
      while tokenExists
        invariant 0 <= k < |draws|
        invariant token == Spell(draws[k]) && IsToken(token)
        invariant tokenExists == TokenTaken(token)
        invariant forall j :: 0 <= j < k ==> TokenTaken(Spell(draws[j]))
        decreases |draws| - k
      {
        k := k + 1;
        token := GenerateToken(draws[k]);
        tokenExists := TokenTaken(token);
      }
      attempts := k + 1;
    }

    /** `Booking.create(draft)`: schema validation and the unique token index decide
        whether the document is stored; a stored document gets the next `_id` and both
        timestamps. */
    method Create(draft: Booking, now: nat) returns (created: Option<Booking>)
      requires Valid()
      modifies this
      ensures Valid()
      ensures created.Some? <==> ValidBooking(draft) && draft.token !in old(TokensOf(docs))
      ensures created.Some? ==>
        && created.value == draft.(id := old(nextId), createdAt := now, updatedAt := now)
        && docs == old(docs) + [created.value]
        && nextId == old(nextId) + 1
      ensures created.None? ==> docs == old(docs) && nextId == old(nextId)
    {
      if ValidBooking(draft) && draft.token !in TokensOf(docs) {
        var b := draft.(id := nextId, createdAt := now, updatedAt := now);
        AppendKeepsWellFormed(docs, nextId, b);
        docs := docs + [b];
        nextId := nextId + 1;
        created := Some(b);
      } else {
        created := None;
      }
    }
  }
}
