/** What every reachable state of the chat server satisfies, and that every step keeps it. */
module ChatInvariant {
  import opened Prelude
  import opened ChatModel

  /** The descriptors of entries `lo` to `hi - 1`. */
  function ClientsIn(fds: seq<PollFd>, lo: nat, hi: nat): set<int>
    requires hi <= |fds|
  {
    set j | lo <= j < hi :: fds[j].fd
  }

  function Members(s: State): set<int>
    requires s.count < |s.fds|
  {
    ClientsIn(s.fds, 1, s.count + 1)
  }

  function MembersStep(before: set<int>, note: Note): set<int> {
    match note
    case Joined(g, _) => before + {g}
    case Left(g, _) => before - {g}
    case _ => before
  }

  /** The clients that joined and have not left, by the notes. */
  function MembersOf(log: seq<Note>): set<int> {
    if log == [] then {} else MembersStep(MembersOf(log[..|log| - 1]), log[|log| - 1])
  }

  function OwedStep(before: Option<int>, note: Note, fd: int): Option<int> {
    match note
    case Joined(g, _) => if g == fd then None else before
    case Said(g, _) => if g == fd then before else Some(g)
    case Delivered(g, _, _) => if g == fd then None else before
    case _ => before
  }

  /**
   The broadcaster whose text client `fd` is due: the most recent other speaker since the
   client joined and since it was last sent anything, if any.
   */
  function Owed(log: seq<Note>, fd: int): Option<int> {
    if log == [] then None else OwedStep(Owed(log[..|log| - 1], fd), log[|log| - 1], fd)
  }

  function AskedStep(before: bool, note: Note, fd: int): bool {
    match note
    case Joined(g, _) => before && g != fd
    case Said(g, _) => before || g != fd
    case _ => before
  }

  /** Some other client has spoken since `fd` joined. */
  function Asked(log: seq<Note>, fd: int): bool {
    |log| > 0 && AskedStep(Asked(log[..|log| - 1], fd), log[|log| - 1], fd)
  }

  /** The address `fd` last joined from. */
  function HomeOf(log: seq<Note>, fd: int): Option<int> {
    if log == [] then None
    else
      match log[|log| - 1]
      case Joined(g, address) => if g == fd then Some(address) else HomeOf(log[..|log| - 1], fd)
      case _ => HomeOf(log[..|log| - 1], fd)
  }

  /**
   The broadcast whose text is in the buffer of record `fd`, if any: its own last one, unless
   the buffer was cleared since; when the client left, that of the record copied over it.
   */
  function Origin(log: seq<Note>, fd: int): (r: Option<nat>)
    ensures r.Some? ==> r.value < |log| && log[r.value].Said?
  {
    if log == [] then None
    else
      var before := log[..|log| - 1];
      match log[|log| - 1]
      case Said(g, _) => if g == fd then Some(|log| - 1) else Origin(before, fd)
      case Blanked(g) => if g == fd then None else Origin(before, fd)
      case Left(g, last) => Origin(before, if g == fd then last else fd)
      case _ => Origin(before, fd)
  }

  /** What the buffer of record `fd` holds. */
  function Content(log: seq<Note>, fd: int): Bytes {
    match Origin(log, fd)
    case None => []
    case Some(o) => log[o].text
  }

  /** What a note does to it. */
  function ContentStep(log: seq<Note>, note: Note, fd: int): Bytes {
    if note.Said? && note.speaker == fd then note.text
    else if note.Blanked? && note.blanked == fd then []
    else if note.Left? && note.left == fd then Content(log, note.last)
    else Content(log, fd)
  }

  ghost predicate Layout(s: State) {
    && InBounds(s)
    && s.fds[0].fd == s.lfd && s.fds[0].events == {IN, ERR}
    && s.fds[0].revents <= {IN, ERR, HUP, NVAL}
    && (forall j | 1 <= j <= s.count :: s.fds[j].fd != s.lfd)
    && (forall j, k | 1 <= j < k <= s.count :: s.fds[j].fd != s.fds[k].fd)
    && (forall j | 1 <= j <= s.count && OUT in s.fds[j].revents :: OUT in s.fds[j].events)
    && (s.phase.Visiting? ==> s.phase.i <= s.count)
  }

  /** Every buffer ends in a zero byte, and every `write_buf` points into the table. */
  ghost predicate Records(s: State) {
    && (forall f | 0 <= f < |s.users| :: |s.users[f].buf| == BUFFER_SIZE && s.users[f].buf[BUFFER_SIZE - 1] == 0)
    && (forall f | 0 <= f < |s.users| && s.users[f].writeBuf.Some? :: 0 <= s.users[f].writeBuf.value < |s.users|)
  }

  ghost predicate Membership(s: State, foreign: set<int>) {
    && s.count < |s.fds|
    && MembersOf(s.log) == Members(s)
    && s.open == foreign + {s.lfd} + Members(s)
    && foreign !! Members(s)
  }

  /**
   A client is asked about input and hang-ups only until a broadcast reaches it, and about
   everything from then on; `write_buf` is then what the notes say is due to it. Its record
   holds the address it joined from.
   */
  predicate MailOk(e: PollFd, record: ClientData, log: seq<Note>) {
    && e.events == (if Asked(log, e.fd) then ALL else {IN, RDHUP, ERR})
    && (if Asked(log, e.fd) then record.writeBuf == Owed(log, e.fd) else Owed(log, e.fd) == None)
    && HomeOf(log, e.fd) == Some(record.address)
  }

  ghost predicate Mail(s: State) {
    && InBounds(s)
    && (forall j | 1 <= j <= s.count :: MailOk(s.fds[j], s.users[s.fds[j].fd], s.log))
  }

  ghost predicate Texts(s: State) {
    forall f | 0 <= f < |s.users| ::
      && |Content(s.log, f)| < BUFFER_SIZE
      && s.users[f].buf == Fill(Content(s.log, f))
  }

  /** A delivery goes to a member, from the broadcaster it is due, and is what that one's buffer holds. */
  predicate DeliveryOk(log: seq<Note>, k: nat)
    requires k < |log|
  {
    log[k].Delivered? ==>
      && log[k].to in MembersOf(log[..k])
      && Owed(log[..k], log[k].to) == Some(log[k].from)
      && log[k].bytes == CString(Content(log[..k], log[k].from))
  }

  ghost predicate Deliveries(log: seq<Note>) {
    forall k: nat | k < |log| :: DeliveryOk(log, k)
  }

  /** No descriptor appears twice. */
  ghost predicate Distinct(es: seq<Seen>) {
    forall j, k | 0 <= j < k < |es| :: es[j].fd != es[k].fd
  }

  /** What the pass has looked at and what lies ahead is what `poll` reported and what joined since. */
  ghost predicate Progress(s: State) {
    && s.count < |s.fds|
    && |s.admitted| <= 1
    && (forall k | 0 <= k < |s.admitted| :: s.admitted[k].revents == {})
    && Distinct(s.polled + s.admitted)
    && match s.phase
       case Waiting => multiset(s.visited) == multiset(s.polled) + multiset(s.admitted)
       case Visiting(i) =>
         && i <= s.count
         && (i == 0 ==> s.visited == [] && s.admitted == [])
         && multiset(s.visited) + multiset(Entries(s.fds, i, s.count + 1)) == multiset(s.polled) + multiset(s.admitted)
  }

  ghost predicate Inv(s: State, foreign: set<int>) {
    && Layout(s)
    && Records(s)
    && Membership(s, foreign)
    && Mail(s)
    && Texts(s)
    && Deliveries(s.log)
    && Progress(s)
  }

  lemma StartInv(limit: nat, fdLimit: nat, lfd: int, foreign: set<int>)
    requires lfd !in foreign
    ensures Inv(Start(limit, fdLimit, lfd, foreign), foreign)
  {
  }

  // ---- notes ----

  lemma NoteLast(log: seq<Note>, note: Note)
    ensures (log + [note])[..|log|] == log && (log + [note])[|log|] == note
  {
  }

  lemma OneNote(log: seq<Note>, note: Note)
    ensures MembersOf(log + [note]) == MembersStep(MembersOf(log), note)
    ensures forall fd :: Owed(log + [note], fd) == OwedStep(Owed(log, fd), note, fd)
    ensures forall fd :: Asked(log + [note], fd) == AskedStep(Asked(log, fd), note, fd)
    ensures forall fd ::
              HomeOf(log + [note], fd) == if note.Joined? && note.joined == fd then Some(note.address) else HomeOf(log, fd)
    ensures forall fd :: Content(log + [note], fd) == ContentStep(log, note, fd)
  {
    NoteLast(log, note);
  }

  // ---- members ----

  lemma MemberAt(s: State, j: nat)
    requires s.count < |s.fds| && 1 <= j <= s.count
    ensures s.fds[j].fd in Members(s)
  {
  }

  lemma SameMembers(s: State, s': State)
    requires s.count == s'.count < |s.fds| == |s'.fds|
    requires forall j | 1 <= j <= s.count :: s'.fds[j].fd == s.fds[j].fd
    ensures Members(s') == Members(s)
  {
    var a, b := Members(s), Members(s');
    forall g | g in a ensures g in b {
      var j :| 1 <= j < s.count + 1 && s.fds[j].fd == g;
      assert s'.fds[j].fd == g;
    }
    forall g | g in b ensures g in a {
      var j :| 1 <= j < s.count + 1 && s'.fds[j].fd == g;
      assert s.fds[j].fd == g;
    }
  }

  lemma JoinedMembers(s: State, s': State, e: PollFd)
    requires s.count + 1 < |s.fds| && s'.count == s.count + 1 && s'.fds == s.fds[s.count + 1 := e]
    ensures Members(s') == Members(s) + {e.fd}
  {
    var a, b := Members(s), Members(s');
    assert s'.fds[s'.count].fd == e.fd;
    forall g | g in a ensures g in b {
      var j :| 1 <= j < s.count + 1 && s.fds[j].fd == g;
      assert s'.fds[j].fd == g;
    }
    forall g | g in b && g != e.fd ensures g in a {
      var j :| 1 <= j < s'.count + 1 && s'.fds[j].fd == g;
      assert s.fds[j].fd == g;
    }
  }

  lemma LeftMembers(s: State, s': State, i: nat)
    requires 1 <= i <= s.count < |s.fds|
    requires forall j, k | 1 <= j < k <= s.count :: s.fds[j].fd != s.fds[k].fd
    requires s'.count == s.count - 1 && s'.fds == s.fds[i := s.fds[s.count]]
    ensures Members(s') == Members(s) - {s.fds[i].fd}
  {
    var a, b := Members(s), Members(s');
    forall g | g in a && g != s.fds[i].fd ensures g in b {
      var j :| 1 <= j < s.count + 1 && s.fds[j].fd == g;
      assert s'.fds[if j == s.count then i else j].fd == g;
    }
    forall g | g in b ensures g in a && g != s.fds[i].fd {
      var j :| 1 <= j < s'.count + 1 && s'.fds[j].fd == g;
      assert s.fds[if j == i then s.count else j].fd == g;
    }
  }

  lemma DeliveriesGrow(log: seq<Note>, note: Note)
    requires Deliveries(log)
    requires note.Delivered? ==>
               && note.to in MembersOf(log)
               && Owed(log, note.to) == Some(note.from)
               && note.bytes == CString(Content(log, note.from))
    ensures Deliveries(log + [note])
  {
    hide MembersOf, Owed, Content;
    NoteLast(log, note);
    forall k: nat | k < |log + [note]| ensures DeliveryOk(log + [note], k) {
      if k < |log| {
        assert (log + [note])[..k] == log[..k];
        assert DeliveryOk(log, k);
      }
    }
  }

  // ---- poll ----

  lemma StartPassMail(s: State, revents: seq<Mask>)
    requires Mail(s) && LegalAction(s, Poll(revents))
    ensures Mail(StartPass(s, revents))
  {
    hide Owed, Asked, HomeOf, Entries;
    var s' := StartPass(s, revents);
    forall j | 1 <= j <= s'.count ensures MailOk(s'.fds[j], s'.users[s'.fds[j].fd], s'.log) {
      assert MailOk(s.fds[j], s.users[s.fds[j].fd], s.log);
    }
  }

  lemma StartPassLayout(s: State, revents: seq<Mask>)
    requires Layout(s) && LegalAction(s, Poll(revents))
    ensures Layout(StartPass(s, revents))
    ensures StartPass(s, revents).count == s.count && |StartPass(s, revents).fds| == |s.fds|
    ensures forall j | 0 <= j <= s.count :: StartPass(s, revents).fds[j].fd == s.fds[j].fd
  {
    hide Entries;
    var s' := StartPass(s, revents);
    forall j | 1 <= j <= s'.count && OUT in s'.fds[j].revents ensures OUT in s'.fds[j].events {
      assert revents[j] <= s.fds[j].events + {ERR, HUP, NVAL};
    }
  }

  lemma StartPassProgress(s: State, revents: seq<Mask>)
    requires Layout(s) && LegalAction(s, Poll(revents))
    ensures Progress(StartPass(s, revents))
  {
    var s' := StartPass(s, revents);
    assert s'.polled + s'.admitted == s'.polled;
  }

  lemma StartPassInv(s: State, revents: seq<Mask>, foreign: set<int>)
    requires Inv(s, foreign) && LegalAction(s, Poll(revents))
    ensures Inv(StartPass(s, revents), foreign)
  {
    hide MembersOf, Owed, Asked, HomeOf, Content, ClientsIn, Progress, Mail;
    var s' := StartPass(s, revents);
    StartPassLayout(s, revents);
    SameMembers(s, s');
    StartPassMail(s, revents);
    StartPassProgress(s, revents);
  }

  // ---- the branches ----

  lemma NewIsNoMember(s: State, fd: int)
    requires s.count < |s.fds| && fd !in Members(s)
    ensures forall j | 1 <= j <= s.count :: s.fds[j].fd != fd
  {
    forall j | 1 <= j <= s.count ensures s.fds[j].fd != fd {
      MemberAt(s, j);
    }
  }

  lemma AcceptKeeps(s: State, a: Answer, foreign: set<int>)
    requires Inv(s, foreign) && LegalAction(s, Visit(a))
    ensures Layout(Accept(s, a)) && Records(Accept(s, a))
    ensures Membership(Accept(s, a), foreign)
  {
    hide MembersOf, Owed, Asked, HomeOf, Content, ClientsIn;

    var s' := Accept(s, a);
    if a.accepted.Some? {
      var fd := a.accepted.value;
      if s.count >= |s.fds| - 1 {
        OneNote(s.log, Rejected(fd));
      } else {
        OneNote(s.log, Joined(fd, a.address));
        JoinedMembers(s, s', PollFd(fd, {IN, RDHUP, ERR}, {}));
        NewIsNoMember(s, fd);
      }
    }
  }

  lemma AcceptKeepsMail(s: State, a: Answer, foreign: set<int>)
    requires Inv(s, foreign) && LegalAction(s, Visit(a))
    ensures Mail(Accept(s, a)) && Texts(Accept(s, a)) && Deliveries(Accept(s, a).log)
  {
    hide MembersOf, Owed, Asked, HomeOf, Content, ClientsIn;

    var s' := Accept(s, a);
    if a.accepted.Some? {
      var fd := a.accepted.value;
      var note := if s.count >= |s.fds| - 1 then Rejected(fd) else Joined(fd, a.address);
      OneNote(s.log, note);
      DeliveriesGrow(s.log, note);
      NewIsNoMember(s, fd);
    }
  }

  lemma RemoveKeeps(s: State, i: nat, foreign: set<int>)
    requires Inv(s, foreign) && 1 <= i <= s.count && s.phase == Visiting(i)
    ensures Layout(Remove(s, i).(phase := Waiting)) && Records(Remove(s, i))
    ensures Membership(Remove(s, i), foreign)
  {
    hide MembersOf, Owed, Asked, HomeOf, Content, ClientsIn;
    var s' := Remove(s, i);
    OneNote(s.log, Left(s.fds[i].fd, s.fds[s.count].fd));
    MemberAt(s, i);
    LeftMembers(s, s', i);
  }

  lemma RemoveKeepsMail(s: State, i: nat, foreign: set<int>)
    requires Inv(s, foreign) && 1 <= i <= s.count
    ensures Mail(Remove(s, i)) && Texts(Remove(s, i)) && Deliveries(Remove(s, i).log)
  {
    hide MembersOf, Owed, Asked, HomeOf, Content, ClientsIn;

    var s' := Remove(s, i);
    var fd := s.fds[i].fd;
    OneNote(s.log, Left(fd, s.fds[s.count].fd));
    DeliveriesGrow(s.log, Left(fd, s.fds[s.count].fd));
    forall j | 1 <= j <= s'.count
      ensures MailOk(s'.fds[j], s'.users[s'.fds[j].fd], s'.log)
    {
      var j0 := if j == i then s.count else j;
      assert s'.fds[j] == s.fds[j0];
      assert MailOk(s.fds[j0], s.users[s.fds[j0].fd], s.log);
    }
  }

  /** The broadcast loop, in closed form. */
  lemma {:induction false} BroadcastEffect(s: State, lo: nat, speaker: int)
    requires InBounds(s) && 1 <= lo <= s.count + 1
    ensures
      var r := Broadcast(s, lo, speaker);
      && r == s.(fds := r.fds, users := r.users)
      && |r.fds| == |s.fds| && |r.users| == |s.users|
      && (forall j | 0 <= j < |s.fds| ::
            r.fds[j] == if lo <= j <= s.count && s.fds[j].fd != speaker
                        then s.fds[j].(events := OrNot(s.fds[j].events, IN) + {OUT}) else s.fds[j])
      && (forall f | 0 <= f < |s.users| ::
            r.users[f] == if f in ClientsIn(s.fds, lo, s.count + 1) && f != speaker
                          then s.users[f].(writeBuf := Some(speaker)) else s.users[f])
    decreases s.count + 1 - lo
  {
    hide ClientsIn, OrNot;
    if lo == s.count + 1 {
      NoClients(s.fds, lo);
    } else {
      var fd := s.fds[lo].fd;
      var s1 :=
        if fd == speaker then s
        else s.(fds := s.fds[lo := s.fds[lo].(events := OrNot(s.fds[lo].events, IN) + {OUT})],
                users := s.users[fd := s.users[fd].(writeBuf := Some(speaker))]);
      BroadcastEffect(s1, lo + 1, speaker);
      SplitFirst(s, s1, lo);
    }
  }

  lemma NoClients(fds: seq<PollFd>, lo: nat)
    requires lo <= |fds|
    ensures ClientsIn(fds, lo, lo) == {}
  {
  }

  lemma SplitFirst(s: State, s1: State, lo: nat)
    requires lo <= s.count < |s.fds| == |s1.fds|
    requires forall j | 0 <= j < |s.fds| :: s1.fds[j].fd == s.fds[j].fd
    ensures ClientsIn(s.fds, lo, s.count + 1) == {s.fds[lo].fd} + ClientsIn(s1.fds, lo + 1, s.count + 1)
  {
    var before, after := ClientsIn(s.fds, lo, s.count + 1), ClientsIn(s1.fds, lo + 1, s.count + 1);
    forall f | f in before ensures f in {s.fds[lo].fd} + after {
      var j :| lo <= j < s.count + 1 && s.fds[j].fd == f;
      assert s1.fds[j].fd == f;
    }
    forall f | f in after ensures f in before {
      var j :| lo + 1 <= j < s.count + 1 && s1.fds[j].fd == f;
      assert s.fds[j].fd == f;
    }
  }

  /** A reader that stops at the first zero byte does not see the padding. */
  lemma CStringFill(text: Bytes)
    requires |text| < BUFFER_SIZE
    ensures CString(Fill(text)) == CString(text)
  {
    var r := CString(text);
    assert Fill(text)[..|text|] == text;
    assert r == Fill(text)[..|r|];
    CStringUnique(Fill(text), r);
  }

  function Spoken(s: State, i: nat, bytes: Bytes): State
    requires InBounds(s) && 1 <= i <= s.count && |bytes| < BUFFER_SIZE
  {
    var fd := s.fds[i].fd;
    Broadcast(s.(users := s.users[fd := s.users[fd].(buf := Fill(bytes))]), 1, fd).(log := s.log + [Said(fd, bytes)])
  }

  /** A broadcast, in closed form: every other member is asked for POLLOUT and pointed at the speaker. */
  lemma SpokenEffect(s: State, i: nat, bytes: Bytes)
    requires InBounds(s) && 1 <= i <= s.count && |bytes| < BUFFER_SIZE
    ensures
      var r := Spoken(s, i, bytes);
      var fd := s.fds[i].fd;
      && r == s.(fds := r.fds, users := r.users, log := s.log + [Said(fd, bytes)])
      && |r.fds| == |s.fds| && |r.users| == |s.users|
      && (forall j | 0 <= j < |s.fds| ::
            r.fds[j] == if 1 <= j <= s.count && s.fds[j].fd != fd
                        then s.fds[j].(events := OrNot(s.fds[j].events, IN) + {OUT}) else s.fds[j])
      && (forall f | 0 <= f < |s.users| ::
            r.users[f] == if f == fd then s.users[f].(buf := Fill(bytes))
                          else if f in Members(s) then s.users[f].(writeBuf := Some(fd)) else s.users[f])
  {
    var fd := s.fds[i].fd;
    BroadcastEffect(s.(users := s.users[fd := s.users[fd].(buf := Fill(bytes))]), 1, fd);
  }

  lemma SpokenKeeps(s: State, i: nat, bytes: Bytes, foreign: set<int>)
    requires Inv(s, foreign) && 1 <= i <= s.count && 0 < |bytes| < BUFFER_SIZE
    ensures Layout(Spoken(s, i, bytes)) && Records(Spoken(s, i, bytes))
    ensures Membership(Spoken(s, i, bytes), foreign)
  {
    hide Spoken, Fill, MembersOf, Owed, Asked, HomeOf, Content, ClientsIn;
    SpokenEffect(s, i, bytes);
    FillEnds(bytes);
    var s' := Spoken(s, i, bytes);
    OneNote(s.log, Said(s.fds[i].fd, bytes));
    SameMembers(s, s');
  }

  lemma FillEnds(bytes: Bytes)
    requires |bytes| < BUFFER_SIZE
    ensures |Fill(bytes)| == BUFFER_SIZE && Fill(bytes)[BUFFER_SIZE - 1] == 0
  {
  }

  lemma SpokenKeepsMail(s: State, i: nat, bytes: Bytes, foreign: set<int>)
    requires Inv(s, foreign) && 1 <= i <= s.count && 0 < |bytes| < BUFFER_SIZE
    ensures Mail(Spoken(s, i, bytes)) && Texts(Spoken(s, i, bytes)) && Deliveries(Spoken(s, i, bytes).log)
  {
    hide Spoken, Fill, MembersOf, Owed, Asked, HomeOf, Content, ClientsIn;
    SpokenEffect(s, i, bytes);
    var s' := Spoken(s, i, bytes);
    var fd := s.fds[i].fd;
    OneNote(s.log, Said(fd, bytes));
    DeliveriesGrow(s.log, Said(fd, bytes));
    forall f | 0 <= f < |s'.users|
      ensures |Content(s'.log, f)| < BUFFER_SIZE && s'.users[f].buf == Fill(Content(s'.log, f))
    {
      if f != fd {
        assert s'.users[f].buf == s.users[f].buf;
      }
    }
    forall j | 1 <= j <= s'.count
      ensures MailOk(s'.fds[j], s'.users[s'.fds[j].fd], s'.log)
    {
      assert MailOk(s.fds[j], s.users[s.fds[j].fd], s.log);
      MemberAt(s, j);
    }
  }

  function Silenced(s: State, i: nat): State
    requires InBounds(s) && 1 <= i <= s.count
  {
    var fd := s.fds[i].fd;
    s.(users := s.users[fd := s.users[fd].(buf := Zeros(BUFFER_SIZE))], log := s.log + [Blanked(fd)])
  }

  lemma SilencedKeeps(s: State, i: nat, foreign: set<int>)
    requires Inv(s, foreign) && 1 <= i <= s.count
    ensures Layout(Silenced(s, i)) && Records(Silenced(s, i)) && Membership(Silenced(s, i), foreign)
    ensures Mail(Silenced(s, i)) && Texts(Silenced(s, i)) && Deliveries(Silenced(s, i).log)
  {
    hide MembersOf, Owed, Asked, HomeOf, Content, ClientsIn;

    var s' := Silenced(s, i);
    var note := Blanked(s.fds[i].fd);
    OneNote(s.log, note);
    DeliveriesGrow(s.log, note);
    SameMembers(s, s');
    forall j | 1 <= j <= s'.count
      ensures MailOk(s'.fds[j], s'.users[s'.fds[j].fd], s'.log)
    {
      assert MailOk(s.fds[j], s.users[s.fds[j].fd], s.log);
    }
  }

  lemma WriteKeeps(s: State, i: nat, foreign: set<int>)
    requires Inv(s, foreign) && 1 <= i <= s.count && OUT in s.fds[i].revents
    ensures Layout(Write(s, i)) && Records(Write(s, i)) && Membership(Write(s, i), foreign)
  {
    hide MembersOf, Owed, Asked, HomeOf, Content, ClientsIn;

    var s' := Write(s, i);
    var fd := s.fds[i].fd;
    SameMembers(s, s');
    if s.users[fd].writeBuf.Some? {
      var owner := s.users[fd].writeBuf.value;
      OneNote(s.log, Delivered(fd, owner, CString(s.users[owner].buf)));
    }
  }

  lemma WriteKeepsMail(s: State, i: nat, foreign: set<int>)
    requires Inv(s, foreign) && 1 <= i <= s.count && OUT in s.fds[i].revents
    ensures Mail(Write(s, i)) && Texts(Write(s, i)) && Deliveries(Write(s, i).log)
  {
    hide MembersOf, Owed, Asked, HomeOf, Content, ClientsIn;

    var s' := Write(s, i);
    var fd := s.fds[i].fd;
    assert MailOk(s.fds[i], s.users[fd], s.log);
    if s.users[fd].writeBuf.Some? {
      var owner := s.users[fd].writeBuf.value;
      var note := Delivered(fd, owner, CString(s.users[owner].buf));
      OneNote(s.log, note);
      CStringFill(Content(s.log, owner));
      MemberAt(s, i);
      DeliveriesGrow(s.log, note);
      forall j | 1 <= j <= s'.count
        ensures MailOk(s'.fds[j], s'.users[s'.fds[j].fd], s'.log)
      {
        assert MailOk(s.fds[j], s.users[s.fds[j].fd], s.log);
      }
    }
  }

  // ---- the pass ----

  /** The listening socket is the only one accepted on, and no client branch is taken for it. */
  lemma ListenerBranches(s: State, i: nat)
    requires Layout(s) && i <= s.count
    ensures BranchOf(s.fds[i], s.lfd).ToAccept? ==> i == 0
    ensures BranchOf(s.fds[i], s.lfd).ToHangUp? || BranchOf(s.fds[i], s.lfd).ToRead? || BranchOf(s.fds[i], s.lfd).ToWrite? ==> i >= 1
  {
  }

  /** Everything but the progress of the pass, which the turn as a whole keeps. */
  ghost predicate Sound(s: State, foreign: set<int>) {
    && Layout(s) && Records(s) && Membership(s, foreign) && Mail(s) && Texts(s) && Deliveries(s.log)
  }

  /** A read error clears the buffer before the client is removed. */
  lemma FailedRead(s: State, i: nat, foreign: set<int>)
    requires Inv(s, foreign) && 1 <= i <= s.count && s.phase == Visiting(i)
    ensures InBounds(Silenced(s, i))
    ensures Sound(Remove(Silenced(s, i), i).(phase := Waiting), foreign)
  {
    hide Records, Membership, Mail, Texts, Deliveries, Remove, ClientsIn;
    SilencedKeeps(s, i, foreign);
    assert Progress(Silenced(s, i));
    RemovedSound(Silenced(s, i), i, foreign);
  }

  /** Entries `lo` to `hi - 1`, the first one apart. */
  lemma EntriesFirst(fds: seq<PollFd>, lo: nat, hi: nat)
    requires lo < hi <= |fds|
    ensures Entries(fds, lo, hi) == [Seen(fds[lo].fd, fds[lo].revents)] + Entries(fds, lo + 1, hi)
  {
  }

  lemma EntriesLast(fds: seq<PollFd>, lo: nat, hi: nat)
    requires lo < hi <= |fds|
    ensures Entries(fds, lo, hi) == Entries(fds, lo, hi - 1) + [Seen(fds[hi - 1].fd, fds[hi - 1].revents)]
  {
  }

  /** Filling the hole at `i` with the last entry leaves the other entries ahead, in another order. */
  lemma HoleFilled(fds: seq<PollFd>, i: nat, count: nat)
    requires 1 <= i <= count < |fds|
    ensures multiset(Entries(fds[i := fds[count]], i, count)) == multiset(Entries(fds, i + 1, count + 1))
  {
    if i < count {
      var after := fds[i := fds[count]];
      EntriesFirst(after, i, count);
      EntriesLast(fds, i + 1, count + 1);
      assert Entries(after, i + 1, count) == Entries(fds, i + 1, count);
    } else {
      assert Entries(fds[i := fds[count]], i, count) == [] == Entries(fds, i + 1, count + 1);
    }
  }

  /** Looking at the first entry ahead moves it to those visited. */
  lemma OneVisited(visited: seq<Seen>, ahead: seq<Seen>, e: Seen, rest: seq<Seen>, rest': seq<Seen>)
    requires ahead == [e] + rest && multiset(rest') == multiset(rest)
    ensures multiset(visited + [e]) + multiset(rest') == multiset(visited) + multiset(ahead)
  {
    assert multiset([e] + rest) == multiset{e} + multiset(rest);
    assert multiset(visited + [e]) == multiset(visited) + multiset{e};
  }

  lemma NoEntries(fds: seq<PollFd>, i: nat)
    requires i <= |fds|
    ensures Entries(fds, i, i) == [] && multiset(Entries(fds, i, i)) == multiset{}
  {
  }

  lemma SameEntries(fds: seq<PollFd>, fds': seq<PollFd>, lo: nat, hi: nat)
    requires lo <= hi <= |fds| == |fds'|
    requires forall j | lo <= j < hi :: fds'[j].fd == fds[j].fd && fds'[j].revents == fds[j].revents
    ensures Entries(fds', lo, hi) == Entries(fds, lo, hi)
  {
  }

  /** A step that keeps the entries ahead keeps the progress of the pass. */
  lemma Advance(s: State, s': State, i: nat)
    requires Progress(s) && s.phase == Visiting(i)
    requires s'.count == s.count && |s'.fds| == |s.fds|
    requires forall j | i < j <= s.count :: s'.fds[j].fd == s.fds[j].fd && s'.fds[j].revents == s.fds[j].revents
    requires s'.polled == s.polled && s'.admitted == s.admitted
    requires s'.visited == s.visited + [Seen(s.fds[i].fd, s.fds[i].revents)]
    requires s'.phase == if i + 1 < s.count + 1 then Visiting(i + 1) else Waiting
    ensures Progress(s')
  {
    hide Entries, Distinct;
    EntriesFirst(s.fds, i, s.count + 1);
    SameEntries(s.fds, s'.fds, i + 1, s.count + 1);
    var rest := Entries(s.fds, i + 1, s.count + 1);
    OneVisited(s.visited, Entries(s.fds, i, s.count + 1), Seen(s.fds[i].fd, s.fds[i].revents), rest, rest);
    NoEntries(s.fds, s.count + 1);
  }

  /** An entry appended while entry 0 is looked at lies ahead. */
  lemma JoinProgress(s: State, s': State, e: PollFd)
    requires Progress(s) && s.phase == Visiting(0)
    requires s.count + 1 < |s.fds|
    requires s'.count == s.count + 1 && s'.fds == s.fds[s.count + 1 := e] && e.revents == {}
    requires s'.polled == s.polled && s'.admitted == [Seen(e.fd, {})]
    requires forall j | 0 <= j <= s.count :: s.fds[j].fd != e.fd
    requires s'.visited == [Seen(s.fds[0].fd, s.fds[0].revents)] && s'.phase == Visiting(1)
    ensures Progress(s')
  {
    EntriesFirst(s.fds, 0, s.count + 1);
    EntriesLast(s'.fds, 1, s'.count + 1);
    assert Entries(s'.fds, 1, s.count + 1) == Entries(s.fds, 1, s.count + 1);
    assert s.visited == [] && s.admitted == [];
    var now, rest := s'.visited, Entries(s.fds, 1, s.count + 1);
    assert Entries(s.fds, 0, s.count + 1) == now + rest;
    assert multiset(now + rest) == multiset(now) + multiset(rest);
    assert Entries(s'.fds, 1, s'.count + 1) == rest + s'.admitted;
    assert multiset(rest + s'.admitted) == multiset(rest) + multiset(s'.admitted);
    assert multiset(s.visited) == multiset{} && multiset(s.admitted) == multiset{};
    var all := Entries(s.fds, 0, s.count + 1);
    assert multiset(s.visited) + multiset(all) == multiset(s.polled) + multiset(s.admitted);
    assert multiset{} + multiset(all) == multiset(all) && multiset(s.polled) + multiset{} == multiset(s.polled);
    assert multiset(all) == multiset(now) + multiset(rest);
    assert s.polled + s.admitted == s.polled;
    NewcomerDistinct(s.polled, all, Seen(e.fd, {}));
  }

  lemma NewcomerDistinct(polled: seq<Seen>, all: seq<Seen>, e: Seen)
    requires Distinct(polled) && multiset(polled) == multiset(all)
    requires forall j | 0 <= j < |all| :: all[j].fd != e.fd
    ensures Distinct(polled + [e])
  {
    forall j | 0 <= j < |polled| ensures polled[j].fd != e.fd {
      assert polled[j] in multiset(polled);
      assert polled[j] in multiset(all);
      assert polled[j] in all;
    }
  }

  lemma AcceptProgress(s: State, a: Answer)
    requires Progress(s) && InBounds(s) && s.lfd in s.open
    requires forall j | 0 <= j <= s.count :: s.fds[j].fd in s.open
    requires LegalAction(s, Visit(a)) && s.phase == Visiting(0)
    requires BranchOf(s.fds[0], s.lfd).ToAccept?
    ensures Progress(Turn(s, a))
  {
    var s' := Turn(s, a);
    if s'.count == s.count {
      Advance(s, s', 0);
    } else {
      JoinProgress(s, s', PollFd(a.accepted.value, {IN, RDHUP, ERR}, {}));
    }
  }

  lemma RemoveProgress(s: State, s': State, i: nat)
    requires Progress(s) && s.phase == Visiting(i) && 1 <= i <= s.count < |s.fds|
    requires s'.count == s.count - 1 && s'.fds == s.fds[i := s.fds[s.count]]
    requires s'.polled == s.polled && s'.admitted == s.admitted
    requires s'.visited == s.visited + [Seen(s.fds[i].fd, s.fds[i].revents)]
    requires s'.phase == if i < s'.count + 1 then Visiting(i) else Waiting
    ensures Progress(s')
  {
    hide Entries, Distinct;
    EntriesFirst(s.fds, i, s.count + 1);
    HoleFilled(s.fds, i, s.count);
    OneVisited(s.visited, Entries(s.fds, i, s.count + 1), Seen(s.fds[i].fd, s.fds[i].revents),
               Entries(s.fds, i + 1, s.count + 1), Entries(s'.fds, i, s.count));
    NoEntries(s.fds, s.count + 1);
  }

  lemma EntriesAreOpen(s: State, foreign: set<int>)
    requires Layout(s) && Membership(s, foreign)
    ensures s.lfd in s.open && forall j | 0 <= j <= s.count :: s.fds[j].fd in s.open
  {
    forall j | 1 <= j <= s.count ensures s.fds[j].fd in s.open {
      MemberAt(s, j);
    }
  }

  lemma ReadProgress(s: State, a: Answer, i: nat)
    requires Progress(s) && InBounds(s) && LegalAction(s, Visit(a)) && s.phase == Visiting(i) && 1 <= i <= s.count
    requires BranchOf(s.fds[i], s.lfd).ToRead?
    ensures Progress(Turn(s, a))
  {
    hide Progress, Entries, Broadcast;
    if a.received.Failed? {
      RemoveProgress(s, Turn(s, a), i);
    } else {
      if a.received.Data? {
        assert Read(s, i, a) == Spoken(s, i, a.received.bytes);
        SpokenEffect(s, i, a.received.bytes);
      }
      Advance(s, Turn(s, a), i);
    }
  }

  lemma WriteProgress(s: State, a: Answer, i: nat)
    requires Progress(s) && InBounds(s) && LegalAction(s, Visit(a)) && s.phase == Visiting(i) && 1 <= i <= s.count
    requires BranchOf(s.fds[i], s.lfd).ToWrite?
    ensures Progress(Turn(s, a))
  {
    hide Progress, Entries;
    Advance(s, Turn(s, a), i);
  }

  lemma TurnProgress(s: State, a: Answer, foreign: set<int>)
    requires Inv(s, foreign) && LegalAction(s, Visit(a))
    ensures InBounds(s) && s.phase.i <= s.count && Progress(Turn(s, a))
  {
    hide MembersOf, Owed, Content, ClientsIn, Records, Membership, Mail, Texts, Deliveries, Progress, Write, Accept, Read;
    var i := s.phase.i;
    ListenerBranches(s, i);
    match BranchOf(s.fds[i], s.lfd)
    case ToAccept =>
      EntriesAreOpen(s, foreign);
      AcceptProgress(s, a);
    case ToHangUp => RemoveProgress(s, Turn(s, a), i);
    case ToRead => ReadProgress(s, a, i);
    case ToWrite => WriteProgress(s, a, i);
    case _ => Advance(s, Turn(s, a), i);
  }

  lemma ReadSound(s: State, a: Answer, i: nat, foreign: set<int>)
    requires Inv(s, foreign) && LegalAction(s, Visit(a)) && s.phase == Visiting(i) && 1 <= i <= s.count
    ensures InBounds(s) && Sound(Read(s, i, a).(phase := Waiting), foreign)
  {
    hide Records, Membership, Mail, Texts, Deliveries, Progress, ClientsIn, Remove, Broadcast;
    match a.received {
      case Failed => FailedRead(s, i, foreign);
      case Data(bytes) =>
        SpokenKeeps(s, i, bytes, foreign);
        SpokenKeepsMail(s, i, bytes, foreign);
        assert Read(s, i, a) == Spoken(s, i, bytes);
        assert Sound(Spoken(s, i, bytes), foreign);
        Relabel(Spoken(s, i, bytes), Read(s, i, a).(phase := Waiting), foreign);
      case _ =>
        SilencedKeeps(s, i, foreign);
        assert Sound(Silenced(s, i), foreign);
        Relabel(Silenced(s, i), Read(s, i, a).(phase := Waiting), foreign);
    }
  }

  lemma ActSound(s: State, a: Answer, foreign: set<int>)
    requires Inv(s, foreign) && LegalAction(s, Visit(a))
    ensures InBounds(s) && s.phase.i <= s.count
    ensures Sound(Act(s, s.phase.i, a).(phase := Waiting), foreign)
  {
    hide Records, Membership, Mail, Texts, Deliveries, Progress, Read, Remove, Write, Accept, ClientsIn;
    var i := s.phase.i;
    ListenerBranches(s, i);
    assert Sound(s, foreign);
    match BranchOf(s.fds[i], s.lfd)
    case ToAccept =>
      AcceptKeeps(s, a, foreign);
      AcceptKeepsMail(s, a, foreign);
      assert Sound(Accept(s, a), foreign);
      Relabel(Accept(s, a), Accept(s, a).(phase := Waiting), foreign);
    case ToHangUp =>
      RemovedSound(s, i, foreign);
    case ToRead =>
      ReadSound(s, a, i, foreign);
    case ToWrite =>
      WriteKeeps(s, i, foreign);
      WriteKeepsMail(s, i, foreign);
      assert Sound(Write(s, i), foreign);
      Relabel(Write(s, i), Write(s, i).(phase := Waiting), foreign);
    case _ =>
      Relabel(s, s.(phase := Waiting), foreign);
  }

  lemma RemovedSound(s: State, i: nat, foreign: set<int>)
    requires Inv(s, foreign) && 1 <= i <= s.count && s.phase == Visiting(i)
    ensures Sound(Remove(s, i).(phase := Waiting), foreign)
  {
    RemoveKeeps(s, i, foreign);
    RemoveKeepsMail(s, i, foreign);
  }

  lemma TurnInv(s: State, a: Answer, foreign: set<int>)
    requires Inv(s, foreign) && LegalAction(s, Visit(a))
    ensures InBounds(s) && s.phase.i <= s.count && Inv(Turn(s, a), foreign)
  {
    ActSound(s, a, foreign);
    TurnProgress(s, a, foreign);
    var t := Act(s, s.phase.i, a).(phase := Waiting);
    assert Sound(t, foreign);
    Relabel(t, Turn(s, a), foreign);
  }

  /** The position in the pass and the list of visited entries matter to nothing else. */
  lemma Relabel(s: State, s': State, foreign: set<int>)
    requires Sound(s, foreign)
    requires s' == s.(phase := s'.phase, visited := s'.visited)
    requires s'.phase.Visiting? ==> s'.phase.i <= s'.count
    ensures Sound(s', foreign)
  {
  }
}
