/** The avatar-expression service: the emotion-to-expression matcher with its
    keyword table, the expression lookup used to activate and deactivate, and
    the connection state that guards every request. */
module VTubeStudio {
  import opened Common
  import Text

  datatype Expression = Expression(name: string, file: string, active: bool)

  /** `EXPRESSION_MAPPINGS`, in the order `Object.entries` lists it. */
  const ExpressionMappings: seq<(string, seq<string>)> := [
    ("happy", ["happy", "smile", "joy", "cheerful"]),
    ("sad", ["sad", "cry", "tear", "sorrow"]),
    ("angry", ["angry", "mad", "rage", "upset"]),
    ("surprised", ["surprised", "shock", "wow", "amazed"]),
    ("confused", ["confused", "puzzled", "question", "thinking"]),
    ("excited", ["excited", "energetic", "hyper", "enthusiastic"]),
    ("sleepy", ["sleepy", "tired", "yawn", "drowsy"]),
    ("wink", ["wink", "flirt", "playful"]),
    ("neutral", ["neutral", "normal", "default", "idle"])
  ]

  /** No keyword belongs to two lists. */
  predicate KeywordsUnique(lists: seq<(string, seq<string>)>) {
    forall i, j, w :: 0 <= i < j < |lists| && w in lists[i].1 ==> w !in lists[j].1
  }

  /** Every keyword of the table appears in exactly one of its lists. */
  lemma MappingKeywordsUnique()
    ensures KeywordsUnique(ExpressionMappings)
  {
    NotLater0(); NotLater1(); NotLater2(); NotLater3(); NotLater4();
    NotLater5(); NotLater6(); NotLater7(); NotLater8();
    assert forall i :: 0 <= i < |ExpressionMappings| ==> NotLater(i);
  }

  /** The keywords of list `i` appear in no later list. */
  predicate NotLater(i: nat)
    requires i < |ExpressionMappings|
  {
    forall j, w :: i < j < |ExpressionMappings| && w in ExpressionMappings[i].1 ==> w !in ExpressionMappings[j].1
  }

  lemma NotLater0() ensures NotLater(0) { }
  lemma NotLater1() ensures NotLater(1) { }
  lemma NotLater2() ensures NotLater(2) { }
  lemma NotLater3() ensures NotLater(3) { }
  lemma NotLater4() ensures NotLater(4) { }
  lemma NotLater5() ensures NotLater(5) { }
  lemma NotLater6() ensures NotLater(6) { }
  lemma NotLater7() ensures NotLater(7) { }
  lemma NotLater8() ensures NotLater(8) { }

  // ---------------------------------------------------------------------------
  // Matching an emotion to an expression

  /** The name contains one of the keywords, lower-cased (`alternatives.some(...)`). */
  predicate MentionsAny(name: string, alts: seq<string>) {
    exists a :: a in alts && Text.Contains(Text.Lower(name), a)
  }

  /** The first expression whose lower-cased name contains `needle`. */
  function FindByName(exprs: seq<Expression>, needle: string): Option<Expression>
    decreases |exprs|
  {
    if exprs == [] then None
    else if Text.Contains(Text.Lower(exprs[0].name), needle) then Some(exprs[0])
    else FindByName(exprs[1..], needle)
  }

  /** The first expression whose lower-cased name contains one of `alts`. */
  function FindByAny(exprs: seq<Expression>, alts: seq<string>): Option<Expression>
    decreases |exprs|
  {
    if exprs == [] then None
    else if MentionsAny(exprs[0].name, alts) then Some(exprs[0])
    else FindByAny(exprs[1..], alts)
  }

  /** The `for` loop over the table: each list that contains the emotion exactly
      is tried in turn, and the first hit wins. */
  function MappedMatch(lower: string, exprs: seq<Expression>, lists: seq<(string, seq<string>)>): Option<string>
    decreases |lists|
  {
    if lists == [] then None
    else if lower in lists[0].1 && FindByAny(exprs, lists[0].1).Some? then Some(FindByAny(exprs, lists[0].1).value.name)
    else MappedMatch(lower, exprs, lists[1..])
  }

  /** `findBestExpressionMatch`. */
  function BestMatch(emotion: string, exprs: seq<Expression>): Option<string> {
    var lower := Text.Lower(emotion);
    var direct := FindByName(exprs, lower);
    if direct.Some? then Some(direct.value.name) else MappedMatch(lower, exprs, ExpressionMappings)
  }

  /** `find` by name: nothing exactly when no name contains the needle, and
      otherwise the first expression whose name does. */
  lemma {:induction false} FindByNameFirst(exprs: seq<Expression>, needle: string)
    ensures var r := FindByName(exprs, needle);
      && (r.None? <==> forall k :: 0 <= k < |exprs| ==> !Text.Contains(Text.Lower(exprs[k].name), needle))
      && (r.Some? ==> exists k :: (0 <= k < |exprs| && exprs[k] == r.value
            && Text.Contains(Text.Lower(exprs[k].name), needle)
            && forall j :: 0 <= j < k ==> !Text.Contains(Text.Lower(exprs[j].name), needle)))
    decreases |exprs|
  {
    if exprs != [] && !Text.Contains(Text.Lower(exprs[0].name), needle) {
      FindByNameFirst(exprs[1..], needle);
      assert forall k :: 1 <= k < |exprs| ==> exprs[k] == exprs[1..][k - 1];
      var r := FindByName(exprs, needle);
      if r.Some? {
        var k :| 0 <= k < |exprs[1..]| && exprs[1..][k] == r.value
            && Text.Contains(Text.Lower(exprs[1..][k].name), needle)
            && forall j :: 0 <= j < k ==> !Text.Contains(Text.Lower(exprs[1..][j].name), needle);
        assert exprs[k + 1] == r.value;
      }
    }
  }

  /** `find` by keyword list: nothing exactly when no name mentions a keyword,
      and otherwise the first expression whose name does. */
  lemma {:induction false} FindByAnyFirst(exprs: seq<Expression>, alts: seq<string>)
    ensures var r := FindByAny(exprs, alts);
      && (r.None? <==> forall k :: 0 <= k < |exprs| ==> !MentionsAny(exprs[k].name, alts))
      && (r.Some? ==> exists k :: (0 <= k < |exprs| && exprs[k] == r.value && MentionsAny(exprs[k].name, alts)
            && forall j :: 0 <= j < k ==> !MentionsAny(exprs[j].name, alts)))
    decreases |exprs|
  {
    if exprs != [] && !MentionsAny(exprs[0].name, alts) {
      FindByAnyFirst(exprs[1..], alts);
      assert forall k :: 1 <= k < |exprs| ==> exprs[k] == exprs[1..][k - 1];
      var r := FindByAny(exprs, alts);
      if r.Some? {
        var k :| 0 <= k < |exprs[1..]| && exprs[1..][k] == r.value && MentionsAny(exprs[1..][k].name, alts)
            && forall j :: 0 <= j < k ==> !MentionsAny(exprs[1..][j].name, alts);
        assert exprs[k + 1] == r.value;
      }
    }
  }

  /** With unique keywords only the one list holding the emotion is ever consulted;
      an emotion in no list gets no mapped match. */
  lemma {:induction false} MappedMatchOneList(lower: string, exprs: seq<Expression>, lists: seq<(string, seq<string>)>)
    requires KeywordsUnique(lists)
    ensures (forall i :: 0 <= i < |lists| ==> lower !in lists[i].1) ==> MappedMatch(lower, exprs, lists).None?
    ensures forall i :: 0 <= i < |lists| && lower in lists[i].1 ==>
      MappedMatch(lower, exprs, lists) == (var m := FindByAny(exprs, lists[i].1); if m.Some? then Some(m.value.name) else None)
    decreases |lists|
  {
    if lists != [] {
      var rest := lists[1..];
      assert KeywordsUnique(rest) by {
        forall i, j, w | 0 <= i < j < |rest| && w in rest[i].1 ensures w !in rest[j].1 {
          assert rest[i] == lists[i + 1] && rest[j] == lists[j + 1];
        }
      }
      MappedMatchOneList(lower, exprs, rest);
      forall i | 0 <= i < |lists| && lower in lists[i].1
        ensures MappedMatch(lower, exprs, lists) == (var m := FindByAny(exprs, lists[i].1); if m.Some? then Some(m.value.name) else None)
      {
        if i == 0 {
          if FindByAny(exprs, lists[0].1).None? {
            forall i' | 0 <= i' < |rest| ensures lower !in rest[i'].1 {
              assert rest[i'] == lists[i' + 1];
            }
          }
        } else {
          assert lower !in lists[0].1;
          assert rest[i - 1] == lists[i];
        }
      }
      if forall i :: 0 <= i < |lists| ==> lower !in lists[i].1 {
        assert forall i :: 0 <= i < |rest| ==> rest[i] == lists[i + 1];
      }
    }
  }

  /** The first expression whose name contains the lower-cased emotion wins
      outright; otherwise the answer is the first expression naming a keyword of
      the one list that holds the emotion, and there is none when no list does. */
  lemma BestMatchTiers(emotion: string, exprs: seq<Expression>)
    ensures var lower := Text.Lower(emotion); var r := BestMatch(emotion, exprs);
      && (FindByName(exprs, lower).Some? ==> r == Some(FindByName(exprs, lower).value.name))
      && ((FindByName(exprs, lower).None? && forall i :: 0 <= i < |ExpressionMappings| ==> lower !in ExpressionMappings[i].1)
          ==> r.None?)
      && (forall i :: 0 <= i < |ExpressionMappings| && FindByName(exprs, lower).None? && lower in ExpressionMappings[i].1
            ==> r == (var m := FindByAny(exprs, ExpressionMappings[i].1); if m.Some? then Some(m.value.name) else None))
  {
    MappingKeywordsUnique();
    MappedMatchOneList(Text.Lower(emotion), exprs, ExpressionMappings);
  }

  /** A match is always the name of one of the given expressions. */
  lemma BestMatchIsInput(emotion: string, exprs: seq<Expression>)
    ensures var r := BestMatch(emotion, exprs);
      r.Some? ==> exists k :: 0 <= k < |exprs| && exprs[k].name == r.value
  {
    var lower := Text.Lower(emotion);
    FindByNameFirst(exprs, lower);
    forall i | 0 <= i < |ExpressionMappings| {
      FindByAnyFirst(exprs, ExpressionMappings[i].1);
    }
    MappedIsInput(lower, exprs, ExpressionMappings);
  }

  lemma {:induction false} MappedIsInput(lower: string, exprs: seq<Expression>, lists: seq<(string, seq<string>)>)
    ensures var r := MappedMatch(lower, exprs, lists);
      r.Some? ==> exists k :: 0 <= k < |exprs| && exprs[k].name == r.value
    decreases |lists|
  {
    if lists != [] {
      FindByAnyFirst(exprs, lists[0].1);
      MappedIsInput(lower, exprs, lists[1..]);
    }
  }

  /** `findBestExpressionMatch`, with its early returns. */
  method FindBestExpressionMatch(emotion: string, exprs: seq<Expression>) returns (r: Option<string>)
    ensures r == BestMatch(emotion, exprs)
  {
    var lower := Text.Lower(emotion);
    var direct := FindByName(exprs, lower);
    if direct.Some? {
      return Some(direct.value.name);
    }
    var i := 0;
    while i < |ExpressionMappings|
      invariant 0 <= i <= |ExpressionMappings|
      invariant MappedMatch(lower, exprs, ExpressionMappings) == MappedMatch(lower, exprs, ExpressionMappings[i..])
    {
      var alternatives := ExpressionMappings[i].1;
      assert ExpressionMappings[i..][1..] == ExpressionMappings[i + 1..];
      if lower in alternatives {
        var m := FindByAny(exprs, alternatives);
        if m.Some? {
          return Some(m.value.name);
        }
      }
      i := i + 1;
    }
    return None;
  }

  // ---------------------------------------------------------------------------
  // Finding an expression to switch

  /** The predicate of the `find` in `activateExpression`/`deactivateExpression`:
      the name or the file contains the requested name, case-insensitively. */
  predicate Selects(e: Expression, requested: string) {
    var needle := Text.Lower(requested);
    Text.Contains(Text.Lower(e.name), needle) || Text.Contains(Text.Lower(e.file), needle)
  }

  function FindExpression(exprs: seq<Expression>, requested: string): Option<Expression>
    decreases |exprs|
  {
    if exprs == [] then None
    else if Selects(exprs[0], requested) then Some(exprs[0])
    else FindExpression(exprs[1..], requested)
  }

  /** Nothing is found exactly when no expression is selected; otherwise the first selected one. */
  lemma {:induction false} FindExpressionFirst(exprs: seq<Expression>, requested: string)
    ensures var r := FindExpression(exprs, requested);
      && (r.None? <==> forall k :: 0 <= k < |exprs| ==> !Selects(exprs[k], requested))
      && (r.Some? ==> exists k :: (0 <= k < |exprs| && exprs[k] == r.value && Selects(r.value, requested)
            && forall j :: 0 <= j < k ==> !Selects(exprs[j], requested)))
    decreases |exprs|
  {
    if exprs != [] && !Selects(exprs[0], requested) {
      FindExpressionFirst(exprs[1..], requested);
      assert forall k :: 1 <= k < |exprs| ==> exprs[k] == exprs[1..][k - 1];
      var r := FindExpression(exprs, requested);
      if r.Some? {
        var k :| 0 <= k < |exprs[1..]| && exprs[1..][k] == r.value && Selects(r.value, requested)
            && forall j :: 0 <= j < k ==> !Selects(exprs[1..][j], requested);
        assert exprs[k + 1] == r.value;
      }
    }
  }

  // ---------------------------------------------------------------------------
  // The service

  /** What the service writes to the socket. */
  datatype Request =
    | AuthenticationTokenRequest
    | AuthenticationRequest(token: string)
    | ExpressionStateRequest
    | ExpressionActivation(requestId: string, file: string, active: bool)

  /** The reply to an activation or deactivation: accepted, or refused with an optional error id. */
  datatype Reply = Accepted | Refused(errorId: Option<string>)

  datatype ConnectionStatus = ConnectionStatus(connected: bool, modelLoaded: bool)

  const NotConnected := "Not connected to VTube Studio"

  class Service {
    /** Whether the `socket` field holds a socket. */
    var socket: bool
    var connected: bool
    var authToken: Option<string>
    /** Requests written to the socket, in order. */
    var sent: seq<Request>
    /** Expressions whose automatic deactivation has been scheduled, in order. */
    var scheduled: seq<string>

    /** Connected, with a socket and a token: what every expression request demands. */
    predicate Ready()
      reads this
    {
      connected && socket && Truthy(authToken)
    }

    constructor ()
      ensures !socket && !connected && authToken.None? && sent == [] && scheduled == []
    {
      socket, connected, authToken, sent, scheduled := false, false, None, [], [];
    }

    /** `connect`: adopt an accepted stored token, then open a socket. */
    method Connect(authAccepted: bool, storedToken: Option<string>)
      modifies this`socket, this`authToken
      ensures socket
      ensures authToken == if authAccepted && Truthy(storedToken) then storedToken else old(authToken)
    {
      if authAccepted && Truthy(storedToken) {
        authToken := storedToken;
      }
      socket := true;
    }

    /** The socket's `onopen`, `onerror` and `onclose` handlers. */
    method SocketOpened()
      modifies this`connected
      ensures connected
    {
      connected := true;
    }

    method SocketFailed()
      modifies this`connected
      ensures !connected
    {
      connected := false;
    }

    /** `authenticate`, run on open: a held token is validated first
        (`tokenValid` is the reply); without one, or when it is refused, a new
        token is requested and `issued` is the reply. */
    method Authenticate(tokenValid: bool, issued: Option<string>) returns (r: Result<()>)
      requires socket
      modifies this`authToken, this`sent
      ensures old(Truthy(authToken)) && tokenValid ==>
        r.Ok? && authToken == old(authToken) && sent == old(sent) + [AuthenticationRequest(old(authToken).value)]
      ensures !(old(Truthy(authToken)) && tokenValid) ==>
        && sent == old(sent) + (if old(Truthy(authToken)) then [AuthenticationRequest(old(authToken).value)] else [])
                              + [AuthenticationTokenRequest]
        && (Truthy(issued) ==> r.Ok? && authToken == issued)
        && (!Truthy(issued) ==> r == Err("Authentication failed") && authToken == (if old(Truthy(authToken)) then None else old(authToken)))
    {
      if Truthy(authToken) {
        sent := sent + [AuthenticationRequest(authToken.value)];
        if tokenValid {
          return Ok(());
        }
        authToken := None;
      }
      sent := sent + [AuthenticationTokenRequest];
      if Truthy(issued) {
        authToken := issued;
        return Ok(());
      }
      return Err("Authentication failed");
    }

    /** `clearAuth`. */
    method ClearAuth()
      modifies this`authToken
      ensures authToken.None?
    {
      authToken := None;
    }

    /** `getExpressions`; `reply` is the list the application sends back, if any. */
    method GetExpressions(reply: Option<seq<Expression>>) returns (r: Result<seq<Expression>>)
      modifies this`sent
      ensures !Ready() ==> r == Err(NotConnected) && sent == old(sent)
      ensures Ready() ==> sent == old(sent) + [ExpressionStateRequest]
      ensures Ready() && reply.Some? ==> r == Ok(reply.value)
      ensures Ready() && reply.None? ==> r == Err("Failed to get expressions")
    {
      if !Ready() {
        return Err(NotConnected);
      }
      sent := sent + [ExpressionStateRequest];
      if reply.None? {
        return Err("Failed to get expressions");
      }
      return Ok(reply.value);
    }

    /** `activateExpression` (`active` true) and `deactivateExpression` (false):
        check the guard, list the expressions, pick the first one selected by
        the name, send the switch request and, on an accepted activation with a
        positive duration, schedule the automatic deactivation. */
    method SwitchExpression(name: string, active: bool, duration: Option<real>,
                            listReply: Option<seq<Expression>>, reply: Reply)
      returns (r: Result<bool>)
      modifies this`sent, this`scheduled
      ensures !Ready() ==> r == Err(NotConnected) && sent == old(sent) && scheduled == old(scheduled)
      ensures Ready() && listReply.None? ==> r.Err? && sent == old(sent) + [ExpressionStateRequest]
      ensures Ready() && listReply.Some? && FindExpression(listReply.value, name).None? ==>
        r == Err("Expression \"" + name + "\" not found") && sent == old(sent) + [ExpressionStateRequest]
      ensures Ready() && listReply.Some? && FindExpression(listReply.value, name).Some? ==>
        sent == old(sent) + [ExpressionStateRequest, ExpressionActivation(
          if active then "ExpressionActivationRequest" else "ExpressionDeactivationRequest",
          FindExpression(listReply.value, name).value.file, active)]
      ensures r.Ok? <==> Ready() && listReply.Some? && FindExpression(listReply.value, name).Some? && reply.Accepted?
      ensures r.Ok? ==> r.value
      ensures scheduled == old(scheduled) +
        (if r.Ok? && active && duration.Some? && duration.value > 0.0 then [name] else [])
    {
      if !Ready() {
        return Err(NotConnected);
      }
      var listed := GetExpressions(listReply);
      if listed.Err? {
        return Err(listed.error);
      }
      var expression := FindExpression(listed.value, name);
      if expression.None? {
        return Err("Expression \"" + name + "\" not found");
      }
      var requestId := if active then "ExpressionActivationRequest" else "ExpressionDeactivationRequest";
      sent := sent + [ExpressionActivation(requestId, expression.value.file, active)];
      if reply.Refused? {
        var reason := if Truthy(reply.errorId) then reply.errorId.value else "Unknown error";
        return Err("Failed to " + (if active then "activate" else "deactivate") + " expression: " + reason);
      }
      if active && duration.Some? && duration.value > 0.0 {
        scheduled := scheduled + [name];
      }
      return Ok(true);
    }

    /** `getConnectionStatus`. */
    function ConnectionStatusOf(): (s: ConnectionStatus)
      reads this
      ensures s.connected == connected && !s.modelLoaded
    {
      ConnectionStatus(connected, false)
    }

    /** `disconnect`: afterwards every guarded request fails. */
    method Disconnect()
      modifies this`socket, this`connected, this`authToken
      ensures !socket && !connected && authToken.None?
      ensures !Ready()
    {
      socket := false;
      connected := false;
      authToken := None;
    }
  }

  /** The static `instance` slot behind `getInstance`. */
  class Registry {
    var instance: Service?

    constructor ()
      ensures instance == null
    {
      instance := null;
    }

    /** `getInstance`: create the service on the first call, return it on every call. */
    method GetInstance() returns (s: Service)
      modifies this
      ensures instance == s
      ensures old(instance) != null ==> s == old(instance)
      ensures old(instance) == null ==> fresh(s) && !s.socket && !s.connected && s.authToken.None?
    {
      if instance == null {
        instance := new Service();
      }
      s := instance;
    }
  }
}
