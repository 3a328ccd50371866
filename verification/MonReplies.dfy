/**
 * What the monitoring client makes of any server's bytes, however they are cut
 * (src/client/mon_client.c).
 */
module MonReplies {
  import opened Bytes
  import opened Pipes
  import opened MonProtocol
  import opened MonPayload
  import opened MonSession

  datatype Event = Leaves(n: nat) | Arrives(got: bytes)

  predicate Legal(c: Client, e: Event) {
    match e
    case Leaves(n) => c.state.Sending? && n <= |c.output.pending|
    case Arrives(got) => c.state.Receiving? && |got| <= c.input.room && (got == [] ==> c.input.room == 0)
  }

  function Step(j: Job, c: Client, e: Event): Client
    requires Legal(c, e)
  {
    match e
    case Leaves(n) => ClientSend(c, n)
    case Arrives(got) => ClientReceive(c, j, got)
  }

  ghost predicate Run(j: Job, c: Client, es: seq<Event>)
    decreases |es|
  {
    es != [] ==> Legal(c, es[0]) && Run(j, Step(j, c, es[0]), es[1..])
  }

  ghost function After(j: Job, c: Client, es: seq<Event>): Client
    requires Run(j, c, es)
    decreases |es|
  {
    if es == [] then c else After(j, Step(j, c, es[0]), es[1..])
  }

  ghost predicate Inv(j: Job, c: Client) {
    && c.input.Valid() && c.input.capacity == CLIENT_READ_BUF && c.output.Valid() && c.output.capacity == CLIENT_WRITE_BUF
    && (c.state.Receiving? ==> c.state.k < 2 && c.output == Fresh(CLIENT_WRITE_BUF))
    && (c.state.Sending? ==> c.state.k < 2)
  }

  /** How long the payload is that a response announces. */
  function Length(s: bytes): nat
    requires |s| >= 4
  {
    s[2] as int * 256 + s[3] as int
  }

  /** A response to the command arrived with status 0 and this payload. */
  ghost predicate Shows(j: Job, p: bytes, d: Client) {
    match j.command
    case ShowMetrics =>
      if |p| == 24 then d.state == Done && d.shown == Numbers([Unbe(p[..8]), Unbe(p[8..16]), Unbe(p[16..])]) else d.state == Failed(5)
    case ListUsers =>
      var l := ReadUsers(if p == [] then None else Some(p));
      if l.ok then d.state == Done && d.shown == Lines(l.lines) else d.state == Failed(5)
    case ShowLog =>
      var l := ReadLog(if p == [] then None else Some(p));
      if l.ok then d.state == Done && d.shown == Accesses(l.lines) else d.state == Failed(5)
    case AddUser(_, _) => d.state == Done && d.shown == Added
    case DelUser(_) => d.state == Done && d.shown == Deleted
  }

  /** What the client comes to when it has `s` of the response to request `k`. */
  ghost predicate Reads(j: Job, k: nat, s: bytes, d: Client) {
    if |s| >= 4 && s[0] != 1 then d.state == Failed(5)
    else if |s| < 4 || |s| < 4 + Length(s) then d.state == Receiving(k) && d.input.pending == s
    else if s[1] != 0 then d.state == Failed(if k == 0 then 3 else 4)
    else if k == 0 then
      if TooLong(j, 1) then d.state == Failed(2)
      else d.state == Sending(1) && RequestOf(j, 1).Some? && d.output.pending == RequestBytes(RequestOf(j, 1).value)
    else Shows(j, s[4..4 + Length(s)], d)
  }

  lemma QuestionFits(j: Job, k: nat)
    requires RequestOf(j, k).Some?
    ensures |RequestBytes(RequestOf(j, k).value)| <= 515
  {
    var r := RequestOf(j, k).value;
    assert Joined(r, 0) == [] && |Joined(r, 1)| <= 255 && |Joined(r, 2)| <= 510;
    assert r.nargs == 0 || r.nargs == 1 || r.nargs == 2;
  }

  lemma AsksNext(c: Client, j: Job, k: nat)
    requires c.output == Fresh(CLIENT_WRITE_BUF)
    ensures var d := Ask(c, j, k);
            && d == c.(state := d.state, output := d.output) && d.output.Valid() && d.output.capacity == CLIENT_WRITE_BUF
            && if TooLong(j, k) then d.state == Failed(2)
               else d.state == Sending(k) && RequestOf(j, k).Some? && d.output.pending == RequestBytes(RequestOf(j, k).value)
  {
    hide RequestBytes, RequestOf, TooLong;
    RefusesExactly(j, k);
    if RequestOf(j, k).Some? {
      QuestionFits(j, k);
      assert [] + RequestBytes(RequestOf(j, k).value) == RequestBytes(RequestOf(j, k).value);
    }
  }

  /** What is printed depends on the payload only. */
  lemma ShowsIt(c: Client, j: Job, r: Response)
    requires r.status == OK && r.payload == (if r.len > 0 then r.payload else None) && (r.payload.Some? ==> r.payload.value != [])
    ensures Shows(j, if r.payload.Some? then r.payload.value else [], OnReply(c, j, 1, r))
  {
    hide ReadUsers, ReadLog;
  }

  lemma DecodeIs(s: bytes)
    ensures match Decode(s)
            case NeedMore => |s| < 4 || (s[0] == 1 && |s| < 4 + Length(s))
            case Error => |s| >= 4 && s[0] != 1
            case Ok(r, consumed) =>
              && |s| >= 4 && s[0] == 1 && |s| >= 4 + Length(s) && consumed == 4 + Length(s) && r.status == s[1] && r.len == Length(s)
              && r.payload == if Length(s) > 0 then Some(s[4..4 + Length(s)]) else None
  {
  }

  lemma Arrival(c: Client, j: Job, got: bytes)
    requires Inv(j, c) && Legal(c, Arrives(got)) && c.input.room > 0
    ensures Inv(j, ClientReceive(c, j, got)) && Reads(j, c.state.k, c.input.pending + got, ClientReceive(c, j, got))
  {
    hide TooLong, RequestOf, RequestBytes, Shows, Show, Decode, Length;
    var k, s := c.state.k, c.input.pending + got;
    DecodeIs(s);
    match Decode(s) {
      case NeedMore =>
      case Error =>
      case Ok(r, consumed) =>
        var c1 := c.(input := c.input.Put(got).Take(consumed));
        if r.status == OK && k == 0 { AsksNext(c1, j, 1); }
        if r.status == OK && k == 1 { ShowsIt(c1, j, r); }
    }
  }

  lemma StepInv(j: Job, c: Client, e: Event)
    requires Inv(j, c) && Legal(c, e)
    ensures Inv(j, Step(j, c, e))
  {
    hide TooLong, RequestOf, RequestBytes, Show;
    if e.Arrives? && c.input.room > 0 { Arrival(c, j, e.got); }
  }

  lemma StartInv(j: Job)
    ensures Inv(j, Connected(j))
  {
    hide Ask;
    AsksNext(Initial(), j, 0);
  }

  lemma {:induction false} RunInv(j: Job, c: Client, es: seq<Event>)
    requires Inv(j, c) && Run(j, c, es)
    ensures Inv(j, After(j, c, es))
    decreases |es|
  {
    hide Inv, Step, Legal;
    if es != [] {
      StepInv(j, c, es[0]);
      RunInv(j, Step(j, c, es[0]), es[1..]);
    }
  }

  /**
   * Whatever the server is and however its bytes arrive: the client waits while
   * the response's length or payload is incomplete, ends as malformed for
   * another version, a payload it cannot read or more bytes than it has room
   * for, ends as refused for a status that is not 0, and otherwise asks its
   * command or shows the payload.
   */
  lemma ReadsAnyServer(j: Job, es: seq<Event>, got: bytes)
    requires Run(j, Connected(j), es) && Legal(After(j, Connected(j), es), Arrives(got))
    ensures var c := After(j, Connected(j), es);
            var d := Step(j, c, Arrives(got));
            if c.input.room == 0 then d.state == Failed(5) else Reads(j, c.state.k, c.input.pending + got, d)
  {
    hide Reads, Inv;
    StartInv(j);
    RunInv(j, Connected(j), es);
    var c := After(j, Connected(j), es);
    if c.input.room > 0 { Arrival(c, j, got); }
  }
}
