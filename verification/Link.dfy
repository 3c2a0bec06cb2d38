/** One vehicle and its reservation, joined only by messages: the protocol with everything but the
    authority removed. Notes (Sessions) and words (decisions) once said stay in the network for
    good, so any loss, duplication, delay and reordering is covered by reading any of them. */
module Link {
  import opened ResetProtocol
  import opened Bodies

  /** What a Session says about authority. */
  datatype Note = Note(gen: nat, session: nat, ack: nat, certified: bool, spec: VehicleSpec)

  /** What a decision says about authority. */
  datatype Word = Word(state: GrantState, gen: nat, id: nat, route: RouteDecl, limit: real)

  datatype Offer = Offer(id: nat, route: RouteDecl, limit: real)

  datatype Stage =
    | NotAsked | WantsBrake | Stopping | Ready(certified: bool, offer: Option<Offer>)
    | Running(id: nat, route: RouteDecl, limit: real) | Finished

  /** The vehicle's side. */
  datatype Core = Core(session: nat, gen: nat, brake: nat, ack: nat, stage: Stage,
                       spec: VehicleSpec, lastId: nat)

  datatype Claim = Claim(gen: nat, session: nat, grantId: nat, route: RouteDecl, limit: real,
                       phase: ReservedPhase)

  /** The station's side. */
  datatype Seat = Seat(gen: nat, session: nat, spec: VehicleSpec, claim: Option<Claim>,
                       certificate: Certificate)
  {
    predicate Live() { claim.Some? && !claim.value.phase.Retiring? }
  }

  function Followed(spec: VehicleSpec, r: RouteDecl): RouteDecl {
    r.(ell := if spec.model == Unicycle then r.ell else 0.0)
  }

  // ---------------------------------------------------------------- the invariant

  ghost predicate GoWord(words: set<Word>, gen: nat, id: nat, limit: real) {
    exists w :: w in words && w.state.Go? && w.gen == gen && w.id == id && w.limit == limit
  }

  ghost predicate Said(words: set<Word>, state: GrantState, id: nat) {
    exists w :: w in words && w.state == state && w.id == id
  }

  /** A decision id belongs to one decision. */
  ghost predicate WordsInv(words: set<Word>, next: nat) {
    && (forall w :: w in words ==> 0 < w.id < next)
    && (forall w, u :: w in words && u in words && w.id == u.id ==> w == u)
  }

  ghost predicate CoreInv(c: Core, words: set<Word>, next: nat) {
    && c.lastId < next && c.brake <= c.lastId
    && (c.stage.NotAsked? <==> c.gen == 0)
    && (c.stage.NotAsked? || c.stage.WantsBrake? ==> c.brake == 0 && c.ack == 0)
    && (!c.stage.NotAsked? && !c.stage.WantsBrake? ==> c.brake != 0 && Said(words, Brake, c.brake))
    && (c.stage.Stopping? || c.stage.Ready? ==> c.ack == c.brake)
    && (c.stage.Ready? && c.stage.offer.Some? ==>
          var o := c.stage.offer.value;
          o.id <= c.lastId && Word(Go, c.gen, o.id, o.route, o.limit) in words)
    && (c.stage.Running? ==>
          c.ack == c.stage.id <= c.lastId && GoWord(words, c.gen, c.stage.id, c.stage.limit))
    && (c.stage.Finished? ==> Said(words, GrantState.Hold, c.ack))
  }

  ghost predicate NoteInv(c: Core, words: set<Word>, next: nat, n: Note) {
    && n.gen <= c.gen && n.ack < next && (n.certified ==> n.gen > 0 && n.ack != 0)
    && (n.gen == c.gen ==>
          && n.session == c.session
          && (n.certified ==> n.ack == c.brake && (c.stage.Ready? || c.stage.Running? || c.stage.Finished?))
          && (!n.certified ==>
                || n.ack == 0 || n.ack == c.brake
                || (c.stage.Running? && n.ack <= c.stage.id)
                || (c.stage.Finished? && Said(words, GrantState.Hold, n.ack)))
          && (c.gen > 0 ==> n.spec == c.spec || c.stage.Finished?))
  }

  ghost predicate NotesInv(c: Core, words: set<Word>, next: nat, notes: set<Note>) {
    && (forall n :: n in notes ==> NoteInv(c, words, next, n))
    && (forall n, k :: n in notes && k in notes && n.certified && k.certified && n.gen == k.gen
          ==> n.ack == k.ack)
  }

  ghost predicate Proof(notes: set<Note>, gen: nat, id: nat) {
    exists n :: n in notes && n.certified && n.gen == gen && n.ack == id
  }

  /** The reservation alone. */
  ghost predicate ClaimInv(s: Seat, notes: set<Note>) {
    s.claim.Some? ==>
      var h := s.claim.value;
      && 0 < h.gen <= s.gen && h.grantId != 0
      && (s.spec.model == Omni ==> h.route.ell == 0.0)
      && (h.gen == s.gen ==> h.session == s.session)
      && (s.Live() ==> h.gen == s.gen && s.certificate.Certified?)
      // A plan of this very generation cannot be released by any certificate of it.
      && (h.gen == s.gen && s.certificate.AwaitingStop? ==> !Proof(notes, s.gen, s.certificate.brakeId))
  }

  ghost predicate SeatInv(s: Seat, notes: set<Note>, next: nat) {
    && ClaimInv(s, notes)
    && (s.certificate.AwaitingStop? ==> 0 < s.certificate.brakeId < next && s.gen > 0)
    && (s.certificate.Certified? ==> s.gen > 0 && Proof(notes, s.gen, s.certificate.brakeId))
  }

  /** What the two sides know of each other while they are in the same generation. */
  ghost predicate PairInv(c: Core, s: Seat) {
    && s.gen <= c.gen && (s.gen == c.gen && s.gen > 0 ==> s.session == c.session)
    && (s.certificate.Certified? && s.gen == c.gen ==> s.spec == c.spec || c.stage.Finished?)
    && (s.claim.Some? && s.claim.value.gen == c.gen ==>
          var h := s.claim.value;
          && c.brake != 0 && (s.spec == c.spec || c.stage.Finished?)
          && (s.certificate.AwaitingStop? ==> s.certificate.brakeId != c.brake)
          && (h.phase.GoReceived? ==> c.stage.Running? && c.stage.id == h.grantId))
  }

  /** Every Go of the vehicle's generation is covered by the reservation. */
  ghost predicate Covered(h: Claim, w: Word) {
    && w.route == h.route && w.limit <= h.limit && w.id <= h.grantId
    && (w.id == h.grantId ==> w.limit == h.limit)
  }

  ghost predicate GosInv(c: Core, seat: Option<Seat>, words: set<Word>) {
    forall w :: w in words && w.state.Go? ==>
      && seat.Some? && w.gen <= seat.value.gen
      && (w.gen == c.gen ==>
            seat.value.claim.Some? && seat.value.claim.value.gen == c.gen
            && Covered(seat.value.claim.value, w))
  }

  ghost predicate RunInv(c: Core, seat: Option<Seat>, words: set<Word>) {
    && (c.stage.Running? ==>
          && seat.Some? && seat.value.claim.Some? && seat.value.claim.value.gen == c.gen
          && c.stage.route == seat.value.claim.value.route)
    && (seat.Some? && seat.value.claim.Some? ==> Said(words, Go, seat.value.claim.value.grantId))
  }

  ghost predicate LinkInv(c: Core, seat: Option<Seat>, words: set<Word>, notes: set<Note>, next: nat)
  {
    && WordsInv(words, next) && CoreInv(c, words, next) && NotesInv(c, words, next, notes)
    && (seat.Some? ==> SeatInv(seat.value, notes, next) && PairInv(c, seat.value))
    && GosInv(c, seat, words) && RunInv(c, seat, words)
  }

  // ---------------------------------------------------------------- the vehicle's steps

  /** A new generation: everything said about the old one is void. */
  ghost predicate Bumps(c: Core, d: Core) {
    && d.gen > c.gen && d.stage.WantsBrake? && d.brake == 0 && d.ack == 0
    && c.lastId <= d.lastId
  }

  ghost predicate TakesBrake(c: Core, d: Core, words: set<Word>) {
    && c.stage.WantsBrake? && d == c.(stage := Stopping, brake := d.lastId, ack := d.lastId, lastId := d.lastId)
    && c.lastId <= d.lastId
    && exists w :: w in words && w.state.Brake? && w.gen == c.gen && w.id == d.lastId
  }

  ghost predicate TakesOffer(c: Core, d: Core, words: set<Word>) {
    && c.stage.Ready? && d.stage.Ready? && d.stage.offer.Some?
    && d == c.(stage := Ready(c.stage.certified, d.stage.offer), lastId := d.stage.offer.value.id)
    && c.lastId <= d.lastId
    && var o := d.stage.offer.value; Word(Go, c.gen, o.id, o.route, o.limit) in words
  }

  ghost predicate Renews(c: Core, d: Core, words: set<Word>) {
    && c.stage.Running? && d.stage.Running? && c.lastId <= d.lastId
    && d == c.(stage := Running(d.lastId, c.stage.route, d.stage.limit), ack := d.lastId,
               lastId := d.lastId)
    && GoWord(words, c.gen, d.lastId, d.stage.limit)
  }

  ghost predicate TakesHold(c: Core, d: Core, words: set<Word>) {
    && c.stage.Ready? && c.lastId <= d.lastId
    && d == c.(stage := Finished, ack := d.lastId, lastId := d.lastId)
    && Said(words, GrantState.Hold, d.lastId)
  }

  /** Inside a generation, without a message: certification comes and goes, motion begins. */
  ghost predicate Quiet(c: Core, d: Core, words: set<Word>) {
    && d.session == c.session && d.gen == c.gen && d.brake == c.brake && d.spec == c.spec
    && c.lastId <= d.lastId && (d.lastId == c.lastId || exists w :: w in words && w.id == d.lastId)
    && (|| (d.stage == c.stage && d.ack == c.ack)
        || (c.stage.Stopping? && d.stage.Ready? && d.stage.offer.None? && d.ack == c.ack)
        || (c.stage.Ready? && d.stage.Ready? && d.stage.offer == c.stage.offer && d.ack == c.ack)
        || Begins(c, d))
  }

  ghost predicate Begins(c: Core, d: Core) {
    && c.stage.Ready? && c.stage.offer.Some?
    && var o := c.stage.offer.value;
    && d.stage == Running(o.id, Followed(c.spec, o.route), o.limit) && d.ack == o.id
  }

  /** A declared change while nothing is asked for. */
  ghost predicate Respecs(c: Core, d: Core) {
    (c.stage.NotAsked? || c.stage.Finished?) && d == c.(spec := d.spec)
  }

  ghost predicate VehicleStep(c: Core, d: Core, words: set<Word>, next: nat) {
    && d.lastId < next
    && (|| Bumps(c, d) || TakesBrake(c, d, words) || TakesOffer(c, d, words) || Renews(c, d, words)
        || TakesHold(c, d, words) || Quiet(c, d, words) || Respecs(c, d))
  }

  function NoteOf(c: Core): Note {
    Note(c.gen, c.session, c.ack, c.stage.Ready? && c.stage.certified, c.spec)
  }

  // ---------------------------------------------------------------- the station's steps

  function Retire(h: Option<Claim>): Option<Claim> {
    match h case None => None case Some(v) => Some(v.(phase := Retiring))
  }

  /** The footprint follows the reports while nothing is reserved. */
  ghost predicate Reports(s: Seat, t: Seat, notes: set<Note>) {
    && t == s.(spec := t.spec, session := t.session)
    && (s.gen > 0 ==> t.session == s.session)
    && (t.spec != s.spec ==> s.claim.None?)
    && (t.spec != s.spec && s.certificate.Certified? ==> SpecFrom(notes, s.gen, t.spec))
  }

  ghost predicate SpecFrom(notes: set<Note>, gen: nat, spec: VehicleSpec) {
    exists n :: n in notes && n.gen >= gen && n.spec == spec
  }

  /** A later request of the vehicle: Brake, and whatever was reserved retires. */
  ghost predicate AnswersRequest(s: Seat, t: Seat, n: Note, id: nat) {
    && n.gen > s.gen
    && t == s.(gen := n.gen, session := n.session, certificate := AwaitingStop(id), claim := Retire(s.claim))
  }

  ghost predicate Brakes(s: Seat, t: Seat, id: nat) {
    s.Live() && t == s.(certificate := AwaitingStop(id), claim := Retire(s.claim))
  }

  ghost predicate Rejects(s: Seat, t: Seat) {
    t == s.(claim := Retire(s.claim))
  }

  /** The exact certificate of the outstanding Brake. */
  ghost predicate Releases(s: Seat, t: Seat, n: Note) {
    && s.certificate.AwaitingStop? && n.certified && n.gen == s.gen
    && n.ack == s.certificate.brakeId
    && t == s.(spec := n.spec, claim := None, certificate := Certified(n.ack))
  }

  /** The exact receipt of the latest Go. */
  ghost predicate Receives(s: Seat, t: Seat, n: Note) {
    && s.Live() && n.gen == s.claim.value.gen && n.ack == s.claim.value.grantId
    && t == s.(claim := Some(s.claim.value.(phase := GoReceived)))
  }

  ghost predicate Installs(s: Seat, t: Seat, id: nat) {
    && s.claim.None? && s.certificate.Certified? && t.claim.Some?
    && t == s.(claim := Some(Claim(s.gen, s.session, id, t.claim.value.route, t.claim.value.limit,
                                 AwaitGoReceipt)))
    && (s.spec.model == Omni ==> t.claim.value.route.ell == 0.0)
  }

  ghost predicate Extends(s: Seat, t: Seat, id: nat) {
    && s.Live() && t.claim.Some? && t.claim.value.limit > s.claim.value.limit
    && t == s.(claim := Some(s.claim.value.(grantId := id, limit := t.claim.value.limit,
                                          phase := AwaitGoReceipt)))
  }

  function GoOf(s: Seat): Word
    requires s.claim.Some?
  {
    Word(Go, s.gen, s.claim.value.grantId, s.claim.value.route, s.claim.value.limit)
  }

  // ---------------------------------------------------------------- every vehicle step keeps it

  lemma BumpKeeps(c: Core, d: Core, seat: Option<Seat>, words: set<Word>, notes: set<Note>,
                  next: nat)
    requires LinkInv(c, seat, words, notes, next) && Bumps(c, d) && d.lastId < next
    ensures LinkInv(d, seat, words, notes, next)
  {
  }

  lemma TakesBrakeKeeps(c: Core, d: Core, seat: Option<Seat>, words: set<Word>, notes: set<Note>,
                        next: nat)
    requires LinkInv(c, seat, words, notes, next) && TakesBrake(c, d, words) && d.lastId < next
    ensures LinkInv(d, seat, words, notes, next)
  {
    assert Said(words, Brake, d.brake);
  }

  lemma TakesOfferKeeps(c: Core, d: Core, seat: Option<Seat>, words: set<Word>, notes: set<Note>,
                        next: nat)
    requires LinkInv(c, seat, words, notes, next) && TakesOffer(c, d, words) && d.lastId < next
    ensures LinkInv(d, seat, words, notes, next)
  {
  }

  lemma RenewsKeeps(c: Core, d: Core, seat: Option<Seat>, words: set<Word>, notes: set<Note>,
                    next: nat)
    requires LinkInv(c, seat, words, notes, next) && Renews(c, d, words) && d.lastId < next
    ensures LinkInv(d, seat, words, notes, next)
  {
  }

  lemma TakesHoldKeeps(c: Core, d: Core, seat: Option<Seat>, words: set<Word>, notes: set<Note>,
                       next: nat)
    requires LinkInv(c, seat, words, notes, next) && TakesHold(c, d, words) && d.lastId < next
    ensures LinkInv(d, seat, words, notes, next)
  {
  }

  lemma QuietKeeps(c: Core, d: Core, seat: Option<Seat>, words: set<Word>, notes: set<Note>,
                   next: nat)
    requires LinkInv(c, seat, words, notes, next) && Quiet(c, d, words) && d.lastId < next
    ensures LinkInv(d, seat, words, notes, next)
  {
    if Begins(c, d) {
      var o := c.stage.offer.value;
      var w := Word(Go, c.gen, o.id, o.route, o.limit);
      assert w in words && GoWord(words, c.gen, o.id, o.limit);
      assert seat.value.claim.value.route == w.route;
    }
  }

  lemma RespecsKeeps(c: Core, d: Core, seat: Option<Seat>, words: set<Word>, notes: set<Note>,
                     next: nat)
    requires LinkInv(c, seat, words, notes, next) && Respecs(c, d)
    ensures LinkInv(d, seat, words, notes, next)
  {
  }

  /** Whatever the vehicle does, on any decision that was ever said. */
  lemma VehicleStepKeeps(c: Core, d: Core, seat: Option<Seat>, words: set<Word>, notes: set<Note>,
                         next: nat)
    requires LinkInv(c, seat, words, notes, next) && VehicleStep(c, d, words, next)
    ensures LinkInv(d, seat, words, notes, next)
  {
    hide LinkInv, Bumps, TakesBrake, TakesOffer, Renews, TakesHold, Quiet, Respecs;
    if Bumps(c, d) { BumpKeeps(c, d, seat, words, notes, next); }
    else if TakesBrake(c, d, words) { TakesBrakeKeeps(c, d, seat, words, notes, next); }
    else if TakesOffer(c, d, words) { TakesOfferKeeps(c, d, seat, words, notes, next); }
    else if Renews(c, d, words) { RenewsKeeps(c, d, seat, words, notes, next); }
    else if TakesHold(c, d, words) { TakesHoldKeeps(c, d, seat, words, notes, next); }
    else if Quiet(c, d, words) { QuietKeeps(c, d, seat, words, notes, next); }
    else { RespecsKeeps(c, d, seat, words, notes, next); }
  }

  lemma PublishKeeps(c: Core, seat: Option<Seat>, words: set<Word>, notes: set<Note>, next: nat)
    requires LinkInv(c, seat, words, notes, next)
    ensures LinkInv(c, seat, words, notes + {NoteOf(c)}, next)
  {
    var n := NoteOf(c);
    var notes' := notes + {n};
    assert NoteInv(c, words, next, n);
    assert NotesInv(c, words, next, notes');
    if seat.Some? { ProofGrows(c, seat.value, notes, n); }
  }

  lemma ProofGrows(c: Core, s: Seat, notes: set<Note>, n: Note)
    requires n == NoteOf(c) && s.gen <= c.gen
    requires c.stage.Ready? ==> c.ack == c.brake
    requires PairInv(c, s)
    ensures forall id :: Proof(notes, s.gen, id) ==> Proof(notes + {n}, s.gen, id)
    ensures s.claim.Some? && s.claim.value.gen == s.gen && s.certificate.AwaitingStop?
            && !Proof(notes, s.gen, s.certificate.brakeId)
            ==> !Proof(notes + {n}, s.gen, s.certificate.brakeId)
  {
    forall id | Proof(notes, s.gen, id) ensures Proof(notes + {n}, s.gen, id) {
      var k :| k in notes && k.certified && k.gen == s.gen && k.ack == id;
      assert k in notes + {n};
    }
  }

  // ---------------------------------------------------------------- every station step keeps it

  lemma NextKeeps(c: Core, seat: Option<Seat>, words: set<Word>, notes: set<Note>, next: nat,
                  next': nat)
    requires LinkInv(c, seat, words, notes, next) && next <= next'
    ensures LinkInv(c, seat, words, notes, next')
  {
    assert forall n :: n in notes ==> NoteInv(c, words, next, n);
  }

  lemma NewSeatKeeps(c: Core, words: set<Word>, notes: set<Note>, next: nat, spec: VehicleSpec)
    requires LinkInv(c, None, words, notes, next)
    ensures LinkInv(c, Some(Seat(0, 0, spec, None, Uncertified)), words, notes, next)
  {
  }

  lemma ReportsKeeps(c: Core, s: Seat, t: Seat, words: set<Word>, notes: set<Note>, next: nat)
    requires LinkInv(c, Some(s), words, notes, next) && Reports(s, t, notes)
    ensures LinkInv(c, Some(t), words, notes, next)
  {
  }

  lemma AnswersRequestKeeps(c: Core, s: Seat, t: Seat, words: set<Word>, notes: set<Note>,
                            next: nat, n: Note, w: Word)
    requires LinkInv(c, Some(s), words, notes, next) && n in notes
    requires w.state.Brake? && w.id == next && AnswersRequest(s, t, n, next)
    ensures LinkInv(c, Some(t), words + {w}, notes, next + 1)
  {
    WordKeeps(c, Some(s), words, notes, next, w);
  }

  /** A word that is not a Go changes nothing but the allocator. */
  lemma WordKeeps(c: Core, seat: Option<Seat>, words: set<Word>, notes: set<Note>, next: nat,
                  w: Word)
    requires LinkInv(c, seat, words, notes, next) && w.id == next && next > 0 && !w.state.Go?
    ensures LinkInv(c, seat, words + {w}, notes, next + 1)
  {
    SaidGrows(words, w);
    assert forall n :: n in notes ==> NoteInv(c, words, next, n);
  }

  lemma SaidGrows(words: set<Word>, w: Word)
    ensures forall state, id :: Said(words, state, id) ==> Said(words + {w}, state, id)
    ensures forall gen, id, limit :: GoWord(words, gen, id, limit) ==> GoWord(words + {w}, gen, id, limit)
  {
    forall state, id | Said(words, state, id) ensures Said(words + {w}, state, id) {
      var u :| u in words && u.state == state && u.id == id;
      assert u in words + {w};
    }
    forall gen, id, limit | GoWord(words, gen, id, limit) ensures GoWord(words + {w}, gen, id, limit) {
      var u :| u in words && u.state.Go? && u.gen == gen && u.id == id && u.limit == limit;
      assert u in words + {w};
    }
  }

  lemma BrakesKeeps(c: Core, s: Seat, t: Seat, words: set<Word>, notes: set<Note>, next: nat,
                    w: Word)
    requires LinkInv(c, Some(s), words, notes, next)
    requires w.state.Brake? && w.id == next && Brakes(s, t, next) && next > 0
    ensures LinkInv(c, Some(t), words + {w}, notes, next + 1)
  {
    WordKeeps(c, Some(s), words, notes, next, w);
    assert !Proof(notes, s.gen, next);
  }

  lemma RejectsKeeps(c: Core, s: Seat, t: Seat, words: set<Word>, notes: set<Note>, next: nat,
                     w: Word)
    requires LinkInv(c, Some(s), words, notes, next)
    requires w.state.Reject? && w.id == next && Rejects(s, t) && next > 0
    ensures LinkInv(c, Some(t), words + {w}, notes, next + 1)
  {
    WordKeeps(c, Some(s), words, notes, next, w);
  }

  lemma ReleasesKeeps(c: Core, s: Seat, t: Seat, words: set<Word>, notes: set<Note>, next: nat,
                      n: Note)
    requires LinkInv(c, Some(s), words, notes, next) && n in notes && Releases(s, t, n)
    ensures LinkInv(c, Some(t), words, notes, next)
    ensures s.claim.Some? ==> s.claim.value.gen < s.gen
  {
    assert Proof(notes, s.gen, s.certificate.brakeId);
    assert NoteInv(c, words, next, n);
  }

  lemma ReceivesKeeps(c: Core, s: Seat, t: Seat, words: set<Word>, notes: set<Note>, next: nat,
                      n: Note)
    requires LinkInv(c, Some(s), words, notes, next) && n in notes && Receives(s, t, n)
    ensures LinkInv(c, Some(t), words, notes, next)
  {
    assert NoteInv(c, words, next, n);
    var h := s.claim.value;
    if h.gen == c.gen {
      assert Said(words, Go, h.grantId) && Said(words, Brake, c.brake);
      if c.stage.Running? {
        assert GoWord(words, c.gen, c.stage.id, c.stage.limit);
      }
    }
  }

  lemma InstallsKeeps(c: Core, s: Seat, t: Seat, words: set<Word>, notes: set<Note>, next: nat)
    requires LinkInv(c, Some(s), words, notes, next) && Installs(s, t, next) && next > 0
    ensures LinkInv(c, Some(t), words + {GoOf(t)}, notes, next + 1)
  {
    var w := GoOf(t);
    SaidGrows(words, w);
    assert Said(words + {w}, Go, next);
    if s.gen == c.gen {
      var n :| n in notes && n.certified && n.gen == s.gen && n.ack == s.certificate.brakeId;
      assert NoteInv(c, words, next, n);
    }
    assert forall n :: n in notes ==> NoteInv(c, words, next, n);
  }

  lemma ExtendsKeeps(c: Core, s: Seat, t: Seat, words: set<Word>, notes: set<Note>, next: nat)
    requires LinkInv(c, Some(s), words, notes, next) && Extends(s, t, next) && next > 0
    ensures LinkInv(c, Some(t), words + {GoOf(t)}, notes, next + 1)
  {
    var w := GoOf(t);
    SaidGrows(words, w);
    assert Said(words + {w}, Go, next);
    assert forall n :: n in notes ==> NoteInv(c, words, next, n);
  }
}
