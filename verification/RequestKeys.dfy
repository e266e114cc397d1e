/**
 The keys under which permission requests wait: which requests share one, and what that costs. A
 submission tells its requests apart by these keys alone.
 */
module RequestKeys {
  import opened Text
  import opened Approval
  import opened Events
  import opened Runtime
  import opened SubmissionModel
  import opened ActorModel
  import opened ActorInvariants

  // ---------------------------------------------------------------------------------------------
  // When keys meet

  /** The second name continues the first past a colon, and the first id starts with that much more. */
  ghost predicate Shifted(name: string, id: string, name': string, id': string) {
    exists more :: name' == name + ":" + more && id == more + ":" + id'
  }

  lemma ShiftedMeet(name: string, id: string, name': string, id': string)
    requires Shifted(name, id, name', id')
    ensures name + ":" + id == name' + ":" + id' && ':' in name' && ':' in id
  {
    var more :| name' == name + ":" + more && id == more + ":" + id';
    assert name + ":" + (more + ":" + id') == (name + ":" + more) + ":" + id';
    assert name'[|name|] == ':' && id[|more|] == ':';
  }

  lemma SplitShorterFirst(name: string, id: string, name': string, id': string)
    requires |name| <= |name'| && name + ":" + id == name' + ":" + id'
    ensures (name == name' && id == id') || Shifted(name, id, name', id')
  {
    var n, k, k' := |name|, name + ":" + id, name' + ":" + id';
    assert k[..n] == name && k'[..n] == name'[..n] && k[n] == ':' && k[n + 1..] == id;
    if n < |name'| {
      var more := name'[n + 1..];
      assert k'[n] == name'[n] && k'[n + 1..] == more + ":" + id';
      assert name' == name + ":" + more;
    } else {
      assert k'[n + 1..] == id';
    }
  }

  /** The separator is the colon between them, or one inside a name on one side and an id on the other. */
  lemma JoinedMeetExactlyWhen(name: string, id: string, name': string, id': string)
    ensures name + ":" + id == name' + ":" + id' <==>
              || (name == name' && id == id')
              || Shifted(name, id, name', id') || Shifted(name', id', name, id)
  {
    if name + ":" + id == name' + ":" + id' {
      if |name| <= |name'| {
        SplitShorterFirst(name, id, name', id');
      } else {
        SplitShorterFirst(name', id', name, id);
      }
    } else if Shifted(name, id, name', id') {
      ShiftedMeet(name, id, name', id');
    } else if Shifted(name', id', name, id) {
      ShiftedMeet(name', id', name, id);
    }
  }

  /** Two ids that print alike: equal ones, and an integer and the string spelling it. */
  predicate PrintAlike(a: RequestId, b: RequestId) {
    match (a, b)
    case (StringId(value), IntegerId(number)) => value == PrintInt(number)
    case (IntegerId(number), StringId(value)) => value == PrintInt(number)
    case _ => a == b
  }

  lemma PrintAlikeExactlyWhen(a: RequestId, b: RequestId)
    ensures PrintedId(a) == PrintedId(b) <==> PrintAlike(a, b)
  {
    if a.IntegerId? && b.IntegerId? {
      PrintIntTellsApart(a.number, b.number);
    }
  }

  /** What makes two requests one for their submission. */
  ghost predicate Meet(a: RequestEvent, b: RequestEvent) {
    match (a, b)
    case (ExecApprovalRequest(callId, _, _, _, _, _), ExecApprovalRequest(callId', _, _, _, _, _)) => callId == callId'
    case (PatchApprovalRequest(callId), PatchApprovalRequest(callId')) => callId == callId'
    case (PermissionsRequest(callId, _), PermissionsRequest(callId', _)) => callId == callId'
    case (ElicitationRequest(name, id, _, _, _), ElicitationRequest(name', id', _, _, _)) =>
      || (name == name' && PrintAlike(id, id'))
      || Shifted(name, PrintedId(id), name', PrintedId(id'))
      || Shifted(name', PrintedId(id'), name, PrintedId(id))
    case _ => false
  }

  const EXEC := "exec:"
  const PATCH := "patch:"
  const PERMISSIONS := "permissions:"
  const ELICITATION := "mcp-elicitation:"

  function Prefix(r: RequestEvent): string {
    match r
    case ExecApprovalRequest(_, _, _, _, _, _) => EXEC
    case PatchApprovalRequest(_) => PATCH
    case PermissionsRequest(_, _) => PERMISSIONS
    case ElicitationRequest(_, _, _, _, _) => ELICITATION
  }

  function Rest(r: RequestEvent): string {
    match r
    case ElicitationRequest(name, id, _, _, _) => name + ":" + PrintedId(id)
    case _ => r.callId
  }

  /** A key starts with its kind, so requests of different kinds never share one. */
  lemma KeysMeetWithinKind(a: RequestEvent, b: RequestEvent)
    ensures RequestKey(a) == RequestKey(b) <==> Prefix(a) == Prefix(b) && Rest(a) == Rest(b)
  {
    var k, k' := RequestKey(a), RequestKey(b);
    assert k == Prefix(a) + Rest(a) && k' == Prefix(b) + Rest(b);
    if k == k' {
      assert k[0] == Prefix(a)[0] && k'[0] == Prefix(b)[0] && k[1] == Prefix(a)[1] && k'[1] == Prefix(b)[1];
      assert k[|Prefix(a)|..] == Rest(a) && k'[|Prefix(b)|..] == Rest(b);
    }
  }

  /**
   Two requests share a key exactly when they are of one kind and have one call id or, for
   elicitations, one server and ids that print alike, or names and ids with a colon that can be taken
   for the separator.
   */
  lemma RequestKeysMeetExactlyWhen(a: RequestEvent, b: RequestEvent)
    ensures RequestKey(a) == RequestKey(b) <==> Meet(a, b)
  {
    KeysMeetWithinKind(a, b);
    if a.ElicitationRequest? && b.ElicitationRequest? {
      JoinedMeetExactlyWhen(a.serverName, PrintedId(a.requestId), b.serverName, PrintedId(b.requestId));
      PrintAlikeExactlyWhen(a.requestId, b.requestId);
    }
  }

  // ---------------------------------------------------------------------------------------------
  // What a caller can check

  /**
   When no server name with a colon stands against a request id with one, elicitations share a key
   only on one server, and then their ids are equal or an integer and the string spelling it.
   */
  lemma ElicitationsToldApart(a: RequestEvent, b: RequestEvent)
    requires a.ElicitationRequest? && b.ElicitationRequest?
    requires ':' !in a.serverName || ':' !in PrintedId(b.requestId)
    requires ':' !in b.serverName || ':' !in PrintedId(a.requestId)
    ensures RequestKey(a) == RequestKey(b) <==>
              a.serverName == b.serverName && PrintAlike(a.requestId, b.requestId)
    ensures RequestKey(a) == RequestKey(b) && (a.requestId.StringId? <==> b.requestId.StringId?) ==>
              a.serverName == b.serverName && a.requestId == b.requestId
  {
    RequestKeysMeetExactlyWhen(a, b);
    var name, id, name', id' := a.serverName, PrintedId(a.requestId), b.serverName, PrintedId(b.requestId);
    if Shifted(name, id, name', id') {
      ShiftedMeet(name, id, name', id');
    }
    if Shifted(name', id', name, id) {
      ShiftedMeet(name', id', name, id);
    }
  }

  /** Integer ids print without a colon, so only their servers need telling apart. */
  lemma IntegerIdsToldApart(a: RequestEvent, b: RequestEvent)
    requires a.ElicitationRequest? && b.ElicitationRequest?
    requires a.requestId.IntegerId? && b.requestId.IntegerId?
    ensures RequestKey(a) == RequestKey(b) <==> a.serverName == b.serverName && a.requestId == b.requestId
  {
    PrintIntTellsApart(a.requestId.number, b.requestId.number);
    PrintIntTellsApart(b.requestId.number, a.requestId.number);
    ElicitationsToldApart(a, b);
  }

  /** Both ways for different elicitations to share a key: a colon in a name, or an id spelled otherwise. */
  lemma ElicitationKeysCollide()
    ensures RequestKey(ElicitationRequest("a:b", StringId("c"), true, false, false))
         == RequestKey(ElicitationRequest("a", StringId("b:c"), true, false, false))
    ensures RequestKey(ElicitationRequest("a", StringId("1"), true, false, false))
         == RequestKey(ElicitationRequest("a", IntegerId(1), true, false, false))
  {
    assert "a:b" + ":" + "c" == "a" + ":" + "b:c";
    assert PrintInt(1) == "1";
  }

  // ---------------------------------------------------------------------------------------------
  // What a shared key costs

  /** Asking one request starts a task under its key, and replaces only one it finds there. */
  lemma AskedUnderItsKey(l: Local, id: string, r: RequestEvent, accepted: bool)
    requires AsksClient(r)
    ensures var t, key, l' := |l.w.tasks|, RequestKey(r), HandleRequest(l, id, r, accepted);
            && l'.sub.interactions == l.sub.interactions[key := Entry(t, RequestFor(r))]
            && |l'.w.tasks| == t + 1 && l'.w.tasks[t].fate == Pending
            && forall u :: 0 <= u < t ==>
                 l'.w.tasks[u].fate
                 == if key in l.sub.interactions && l.sub.interactions[key].task == u then Replaced
                    else l.w.tasks[u].fate
  {}

  /**
   Of two requests a submission asks its client one after the other, the second replaces the first
   exactly when they meet; otherwise both stay pending under their own keys.
   */
  lemma SecondRequestReplacesExactlyWhen(a: Actor, id: string, first: RequestEvent, second: RequestEvent, accepted: bool)
    requires Inv(a) && id in a.subs && AsksClient(first) && AsksClient(second)
    ensures var t := |a.w.tasks|;
            var l := HandleRequest(HandleRequest(Get(a, id), id, first, accepted), id, second, accepted);
            && |l.w.tasks| == t + 2 && l.w.tasks[t + 1].fate.Pending?
            && RequestKey(second) in l.sub.interactions
            && l.sub.interactions[RequestKey(second)] == Entry(t + 1, RequestFor(second))
            && (l.w.tasks[t].fate == if Meet(first, second) then Replaced else Pending)
            && (!Meet(first, second) ==>
                  RequestKey(first) in l.sub.interactions
                  && l.sub.interactions[RequestKey(first)] == Entry(t, RequestFor(first)))
  {
    var l, key := Get(a, id), RequestKey(second);
    RequestKeysMeetExactlyWhen(first, second);
    AskedUnderItsKey(l, id, first, accepted);
    AskedUnderItsKey(HandleRequest(l, id, first, accepted), id, second, accepted);
    if key in l.sub.interactions {
      assert EntryOk(a.w.tasks, id, key, l.sub.interactions[key]);
    }
  }
}
