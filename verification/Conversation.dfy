/** Any conversation can take place: whatever a user of a served proxy and its internal service say
    to each other, in whatever order, there is a run in which each hears exactly what the other
    said, through one internal connection. */
module Conversation {
  import opened Seqs
  import opened Frames
  import opened Decisions
  import opened Tunnel
  import opened Scenarios
  import L = Link
  import W = Writer

  datatype Turn = User(chunk: Bytes) | Service(chunk: Bytes)

  function SaidByUser(turns: seq<Turn>): Bytes {
    if turns == [] then []
    else SaidByUser(turns[..|turns| - 1]) + if turns[|turns| - 1].User? then turns[|turns| - 1].chunk else []
  }

  function SaidByService(turns: seq<Turn>): Bytes {
    if turns == [] then []
    else SaidByService(turns[..|turns| - 1]) + if turns[|turns| - 1].Service? then turns[|turns| - 1].chunk else []
  }

  /** The user speaks: its chunk is queued to the internal connection that is there. */
  lemma UserSpeaks(s0: State, before: seq<Action>, s: State,
      config: seq<ClientInfo>, p: nat, sent: Bytes, got: Bytes, chunk: Bytes)
      returns (run: seq<Action>, t: State)
    requires Exec(s0, before) == Some(s) && Talking(s, config, p, sent, got) && chunk != []
    ensures Exec(s0, run) == Some(t) && Talking(t, config, p, sent + chunk, got)
  {
    hide Exec, Quiet, Writes, W.Push, Chores, Waits;
    var s1;
    run, s1 := Travels(s0, before, s, p, chunk);
    FlatPush(s.exts[First(p)].got, chunk);
    assert W.CanPush(s1.ints[0].port.w) by { WaitingHasRoom(s1.ints[0].port.w); }
    Then(s0, run, Client(CPush), s1);
    run := run + [Client(CPush)];
    var s2 := DoClient(s1, CPush);
    ChoresDone(s.ints[0].port.w, chunk, IntSender(s2, 0));
    run, t := IntWrites(s0, run, s2, Chores(chunk));
  }

  lemma WaitingHasRoom(w: W.Writer)
    requires Waits(w)
    ensures W.CanPush(w)
  {
  }

  /** The service answers: its chunk is read, queued into the tunnel and carried to the server. */
  lemma AnswerTravels(s0: State, before: seq<Action>, s: State,
      config: seq<ClientInfo>, p: nat, sent: Bytes, got: Bytes, chunk: Bytes)
      returns (run: seq<Action>, t: State)
    requires Exec(s0, before) == Some(s) && Talking(s, config, p, sent, got) && chunk != []
    ensures Exec(s0, run) == Some(t)
    ensures t == s.(ints := [s.ints[0].(port := s.ints[0].port.(got := s.ints[0].port.got + [chunk]))],
                    up := Loaded(s.up.log, Chunk(First(p), chunk, 0)))
  {
    hide Exec, Quiet, Loaded, Waits, L.Push;
    Then(s0, before, Inner(0, Read(chunk)), s);
    run := before + [Inner(0, Read(chunk))];
    var s1 := DoInner(s, 0, Read(chunk));
    QuietRoom(s.up.log);
    Then(s0, run, Inner(0, Send), s1);
    run := run + [Inner(0, Send)];
    var s2 := DoInner(s1, 0, Send);
    assert s2.ints == [s2.ints[0]];
    var it := Chunk(First(p), chunk, 0);
    CarryUp(s0, run, s2, s.up.log, it);
    run := run + [Up(L.Pop)] + [Up(L.Send)];
    t := s2.(up := Loaded(s.up.log, L.Strip(it)));
  }

  /** The server routes it to the user's channel. */
  lemma AnswerQueued(s0: State, before: seq<Action>, s: State, d: seq<L.Item>, k: Conn, chunk: Bytes)
      returns (run: seq<Action>, t: State)
    requires Exec(s0, before) == Some(s) && s.srv.SIdle? && s.up == Loaded(d, Chunk(k, chunk, 0))
    requires k in s.routes && k in s.exts && W.CanPush(s.exts[k].w)
    ensures Exec(s0, run) == Some(t)
    ensures t == s.(exts := s.exts[k := s.exts[k].(w := W.Push(s.exts[k].w, chunk))], up := t.up)
    ensures t.up == Quiet(t.up.log)
  {
    hide Exec, Quiet, Loaded, L.Deliver, W.Push;
    var it := Chunk(k, chunk, 0);
    LoadedWire(d, it);
    Then(s0, before, Server(STake), s);
    run := before + [Server(STake)];
    var s1 := DoServer(s, STake);
    Transit(d, it);
    QuietLog(d + [it]);
    Then(s0, run, Server(SPush), s1);
    run := run + [Server(SPush)];
    t := DoServer(s1, SPush);
  }

  lemma ServiceSpeaks(s0: State, before: seq<Action>, s: State,
      config: seq<ClientInfo>, p: nat, sent: Bytes, got: Bytes, chunk: Bytes)
      returns (run: seq<Action>, t: State)
    requires Exec(s0, before) == Some(s) && Talking(s, config, p, sent, got) && chunk != []
    ensures Exec(s0, run) == Some(t) && Talking(t, config, p, sent, got + chunk)
  {
    hide Exec, Quiet, Loaded, Writes, W.Push, Chores, Waits;
    var s1;
    run, s1 := AnswerTravels(s0, before, s, config, p, sent, got, chunk);
    FlatPush(s.ints[0].port.got, chunk);
    var k := First(p);
    assert W.CanPush(s1.exts[k].w) by { WaitingHasRoom(s1.exts[k].w); }
    var s2;
    run, s2 := AnswerQueued(s0, run, s1, s.up.log, k, chunk);
    ChoresDone(s.exts[k].w, chunk, ExtSender(s2.srv, s2.routes, k));
    run, t := ExtWrites(s0, run, s2, k, Chores(chunk));
  }

  lemma {:induction false} Converse(config: seq<ClientInfo>, p: nat, first: Bytes, turns: seq<Turn>)
      returns (run: seq<Action>, s: State)
    requires p < |config| && Registrable(config) && 0 < |first| <= READ_BUFFER
    requires forall x :: 0 <= x < |turns| ==> 0 < |turns[x].chunk| <= READ_BUFFER
    ensures Exec(Init(config), run) == Some(s)
    ensures Talking(s, config, p, first + SaidByUser(turns), SaidByService(turns))
  {
    hide Exec, Talking;
    if turns == [] {
      run, s := Opens(config, p, first);
      assert first + [] == first;
    } else {
      var init, turn := turns[..|turns| - 1], turns[|turns| - 1];
      run, s := Converse(config, p, first, init);
      var sent, got := first + SaidByUser(init), SaidByService(init);
      if turn.User? {
        run, s := UserSpeaks(Init(config), run, s, config, p, sent, got, turn.chunk);
        assert sent + turn.chunk == first + SaidByUser(turns) && got + [] == got;
      } else {
        run, s := ServiceSpeaks(Init(config), run, s, config, p, sent, got, turn.chunk);
        assert first + (SaidByUser(init) + []) == sent;
      }
    }
  }

  /** For every configuration the server can serve, every proxy of it, every first chunk and
      whatever is said then, chunk by chunk: some run brings exactly that to either socket,
      through one internal connection dialled at the configured address. */
  lemma AnyConversation(config: seq<ClientInfo>, p: nat, first: Bytes, turns: seq<Turn>)
      returns (run: seq<Action>, s: State)
    requires p < |config| && Registrable(config) && 0 < |first| <= READ_BUFFER
    requires forall x :: 0 <= x < |turns| ==> 0 < |turns[x].chunk| <= READ_BUFFER
    ensures Reaches(config, run, s) && !s.srv.SEnded? && Bindings(s, config)
    ensures |s.ints| == 1 && s.ints[0].at == First(p) && s.ints[0].addr == config[p].addr
    ensures s.ints[0].port.w.sock == first + SaidByUser(turns)
    ensures First(p) in s.exts && s.exts[First(p)].w.sock == SaidByService(turns)
  {
    hide Exec;
    run, s := Converse(config, p, first, turns);
  }

  /** In particular: a service that answers in any number of chunks is heard in full, through the
      one connection that carried the question. */
  lemma ResponseHappens(config: seq<ClientInfo>, p: nat, first: Bytes, answers: seq<Bytes>)
      returns (run: seq<Action>, s: State)
    requires p < |config| && Registrable(config) && 0 < |first| <= READ_BUFFER
    requires forall x :: 0 <= x < |answers| ==> 0 < |answers[x]| <= READ_BUFFER
    ensures Reaches(config, run, s) && |s.ints| == 1 && s.ints[0].at == First(p)
    ensures First(p) in s.exts && s.exts[First(p)].w.sock == Flat(answers)
  {
    hide Exec;
    var turns := seq(|answers|, x requires 0 <= x < |answers| => Service(answers[x]));
    run, s := AnyConversation(config, p, first, turns);
    AllService(turns, answers);
  }

  lemma {:induction false} AllService(turns: seq<Turn>, answers: seq<Bytes>)
    requires |turns| == |answers| && forall x :: 0 <= x < |answers| ==> turns[x] == Service(answers[x])
    ensures SaidByService(turns) == Flat(answers)
  {
    if turns == [] {
    } else {
      var n := |answers| - 1;
      AllService(turns[..n], answers[..n]);
      FlatPush(answers[..n], answers[n]);
      assert answers[..n] + [answers[n]] == answers;
    }
  }
}
