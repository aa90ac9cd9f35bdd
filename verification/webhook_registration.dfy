// Registering the webhooks of a workflow in the webhook table, with the manual
// roll-back that stands in for a transaction.
module WebhookRegistration {
  import opened Common

  /** A webhook the workflow lists, with the webhook id of its node, if that has one. */
  datatype WebhookData = WebhookData(httpMethod: string, path: string, node: string, nodeWebhookId: string)

  datatype Row = Row(workflowId: WorkflowId, httpMethod: string, webhookPath: string, node: string,
                     webhookId: Option<string>, pathLength: Option<nat>)

  /** The table is keyed by method and path: storing a taken key overwrites its row. */
  type Table = map<(string, string), Row>

  /** What the database and the external service make of one webhook. */
  datatype Attempt = Stored | StoreFails(cause: Cause) | CreateFails(cause: Cause)

  datatype Cause = QueryFailed | OtherCause(message: string, detail: Option<string>)

  datatype Outcome = NoWebhooks | AllAdded | PathTaken(node: string) | Failed(message: string)

  /**
   * The webhooks a workflow lists, and what one registration of them meets: `found` and `deletes` are
   * what a roll-back finds, `finishError` is an error of the work after the loop.
   */
  datatype Answers = Answers(webhooks: seq<WebhookData>, attempts: seq<Attempt>, found: bool, deletes: seq<bool>,
                             finishError: Option<string>)

  type Hooks = a: Answers | |a.webhooks| == |a.attempts| witness Answers([], [], true, [], None)

  // ---------- one row ----------

  function StripSlashes(path: string): string {
    var front := if path != [] && path[0] == '/' then path[1..] else path;
    if front != [] && front[|front| - 1] == '/' then front[..|front| - 1] else front
  }

  predicate HasParameter(path: string) {
    (path != [] && path[0] == ':') || Includes(path, "/:")
  }

  function Segments(path: string): nat {
    Count(path, (c: char) => c == '/') + 1
  }

  function RowOf(id: WorkflowId, data: WebhookData): Row {
    var path := StripSlashes(data.path);
    if HasParameter(data.path) && data.nodeWebhookId != [] then
      Row(id, data.httpMethod, path, data.node, Some(data.nodeWebhookId), Some(Segments(path)))
    else Row(id, data.httpMethod, path, data.node, None, None)
  }

  function KeyOf(data: WebhookData): (string, string) {
    (data.httpMethod, StripSlashes(data.path))
  }

  // ---------- what a row holds ----------

  /** One slash is taken off each end, where there is one; a lone slash leaves nothing. */
  lemma SlashesStripped(path: string)
    ensures path == ['/'] ==> StripSlashes(path) == []
    ensures path != ['/'] ==>
      var front := if path != [] && path[0] == '/' then ['/'] else [];
      var back := if path != [] && path[|path| - 1] == '/' then ['/'] else [];
      path == front + StripSlashes(path) + back
  {
  }

  /** A path has a parameter when one of its segments starts with a colon. */
  lemma ParameterExactly(path: string)
    ensures HasParameter(path) <==>
      exists i :: 0 <= i < |path| && path[i] == ':' && (i == 0 || path[i - 1] == '/')
  {
    IncludesExactly(path, "/:");
    if i :| 0 < i < |path| && path[i] == ':' && path[i - 1] == '/' {
      assert "/:" <= path[i - 1..];
    }
    if i :| 0 <= i <= |path| && "/:" <= path[i..] {
      assert path[i..][0] == path[i] && path[i..][1] == path[i + 1] && "/:"[0] == '/' && "/:"[1] == ':';
    }
  }

  /** `split` of a path at its slashes. */
  function Split(path: string): (segments: seq<string>)
    ensures segments != []
  {
    if path == [] then [[]]
    else
      var rest := Split(path[1..]);
      if path[0] == '/' then [[]] + rest else [[path[0]] + rest[0]] + rest[1..]
  }

  function Join(segments: seq<string>): string
    requires segments != []
  {
    if |segments| == 1 then segments[0] else segments[0] + "/" + Join(segments[1..])
  }

  /** The recorded path length is the number of segments between slashes, which make up the path. */
  lemma {:induction false} SegmentsExactly(path: string)
    ensures Join(Split(path)) == path && |Split(path)| == Segments(path)
    ensures forall segment :: segment in Split(path) ==> '/' !in segment
  {
    if path != [] {
      SegmentsExactly(path[1..]);
      CountFirst(path, (c: char) => c == '/');
      JoinFirst(path[0], Split(path[1..]));
    }
  }

  lemma JoinFirst(c: char, rest: seq<string>)
    requires rest != []
    ensures Join([[]] + rest) == ['/'] + Join(rest)
    ensures Join([[c] + rest[0]] + rest[1..]) == [c] + Join(rest)
    ensures forall segment :: segment in [[c] + rest[0]] + rest[1..] ==> segment == [c] + rest[0] || segment in rest
  {
    assert ([[]] + rest)[1..] == rest;
    assert ([[c] + rest[0]] + rest[1..])[1..] == rest[1..];
  }

  /**
   * A row is stored under its method and its stripped path. Webhook id and path length are recorded
   * exactly when the path has a parameter and the node an id.
   */
  lemma RowsExactly(id: WorkflowId, data: WebhookData)
    ensures KeyOf(data) == (data.httpMethod, StripSlashes(data.path))
    ensures var row := RowOf(id, data);
      && row.workflowId == id && row.node == data.node && (row.httpMethod, row.webhookPath) == KeyOf(data)
      && (if HasParameter(data.path) && data.nodeWebhookId != ""
          then row.webhookId == Some(data.nodeWebhookId) && row.pathLength == Some(|Split(row.webhookPath)|)
          else row.webhookId == None && row.pathLength == None)
  {
    SegmentsExactly(StripSlashes(data.path));
  }

  // ---------- the loop ----------

  predicate Writes(attempt: Attempt) {
    !attempt.StoreFails?
  }

  /** On init a failed query is expected, because webhooks stay registered over a restart. */
  predicate Blocks(attempt: Attempt, init: bool) {
    !attempt.Stored? && !(init && attempt.cause.QueryFailed?)
  }

  function Put(table: Table, id: WorkflowId, data: WebhookData, attempt: Attempt): Table {
    if Writes(attempt) then table[KeyOf(data) := RowOf(id, data)] else table
  }

  /** The table after the webhooks have been attempted one after the other. */
  function PutAll(table: Table, id: WorkflowId, webhooks: seq<WebhookData>, attempts: seq<Attempt>): Table
    requires |webhooks| <= |attempts|
  {
    if webhooks == [] then table else
      var last := |webhooks| - 1;
      Put(PutAll(table, id, webhooks[..last], attempts), id, webhooks[last], attempts[last])
  }

  function Others(table: Table, id: WorkflowId): Table {
    map key | key in table && table[key].workflowId != id :: table[key]
  }

  /** How many webhooks are attempted, up to and with the first one that blocks. */
  function Attempted(attempts: seq<Attempt>, init: bool): (n: nat)
    ensures n <= |attempts|
    ensures forall i :: 0 <= i < n - 1 ==> !Blocks(attempts[i], init)
    ensures n < |attempts| ==> n > 0 && Blocks(attempts[n - 1], init)
  {
    if attempts == [] then 0
    else if Blocks(attempts[0], init) then 1
    else 1 + Attempted(attempts[1..], init)
  }

  predicate AnyBlocks(attempts: seq<Attempt>, init: bool) {
    exists i :: 0 <= i < |attempts| && Blocks(attempts[i], init)
  }

  function ErrorOf(data: WebhookData, cause: Cause): Outcome {
    match cause
    case QueryFailed => PathTaken(data.node)
    case OtherCause(message, detail) => Failed(if detail.Some? then detail.value else message)
  }

  // ---------- what the loop writes ----------

  /** The webhook that writes `key` last, or -1 if none does. */
  function LastWriter(webhooks: seq<WebhookData>, attempts: seq<Attempt>, key: (string, string)): (i: int)
    requires |webhooks| <= |attempts|
    ensures -1 <= i < |webhooks|
    ensures i >= 0 ==> Writes(attempts[i]) && KeyOf(webhooks[i]) == key
    ensures forall j :: i < j < |webhooks| && Writes(attempts[j]) ==> KeyOf(webhooks[j]) != key
  {
    if webhooks == [] then -1 else
      var last := |webhooks| - 1;
      if Writes(attempts[last]) && KeyOf(webhooks[last]) == key then last
      else LastWriter(webhooks[..last], attempts, key)
  }

  predicate Written(webhooks: seq<WebhookData>, attempts: seq<Attempt>, key: (string, string))
    requires |webhooks| <= |attempts|
  {
    LastWriter(webhooks, attempts, key) >= 0
  }

  /** The row of a key is the one written last; a key that is not written keeps its row. */
  lemma {:induction false} PutAllRows(table: Table, id: WorkflowId, webhooks: seq<WebhookData>, attempts: seq<Attempt>,
                                      key: (string, string))
    requires |webhooks| <= |attempts|
    ensures var (after, i) := (PutAll(table, id, webhooks, attempts), LastWriter(webhooks, attempts, key));
      if i >= 0 then key in after && after[key] == RowOf(id, webhooks[i])
      else (key in after <==> key in table) && (key in table ==> after[key] == table[key])
  {
    if webhooks != [] {
      PutAllRows(table, id, webhooks[..|webhooks| - 1], attempts, key);
    }
  }

  // ---------- all or nothing ----------

  /** After the roll-back the workflow has no row left. */
  lemma ClearedHasNoRow(table: Table, id: WorkflowId)
    ensures forall key :: key in Others(table, id) ==> Others(table, id)[key].workflowId != id
  {
  }

  /**
   * Storing and rolling back gives every other workflow its rows back exactly when no stored key was
   * one of theirs: a taken key is overwritten, not refused.
   */
  lemma RollBackSparesOthersExactly(table: Table, id: WorkflowId, webhooks: seq<WebhookData>, attempts: seq<Attempt>)
    requires |webhooks| <= |attempts|
    ensures Others(PutAll(table, id, webhooks, attempts), id) == Others(table, id)
      <==> forall key :: key in table && table[key].workflowId != id ==> !Written(webhooks, attempts, key)
  {
    var after := PutAll(table, id, webhooks, attempts);
    forall key
      ensures Written(webhooks, attempts, key) ==> key in after && after[key].workflowId == id
      ensures !Written(webhooks, attempts, key) ==>
        && (key in after <==> key in table)
        && (key in table ==> after[key] == table[key])
    {
      PutAllRows(table, id, webhooks, attempts, key);
    }
    if Others(after, id) == Others(table, id) {
      forall key | key in table && table[key].workflowId != id ensures !Written(webhooks, attempts, key) {
        assert key in Others(table, id);
      }
    } else {
      var key :| !(key in Others(after, id) <==> key in Others(table, id))
        || (key in Others(after, id) && key in Others(table, id) && Others(after, id)[key] != Others(table, id)[key]);
      assert key in table && table[key].workflowId != id && Written(webhooks, attempts, key);
    }
  }

  ghost predicate HasNoRow(table: Table, id: WorkflowId) {
    forall key :: key in table ==> table[key].workflowId != id
  }

  /** What a roll-back meets: the workflow is found and the external services delete their webhooks. */
  predicate RollBackSucceeds(found: bool, deletes: seq<bool>) {
    found && forall i :: 0 <= i < |deletes| ==> deletes[i]
  }

  /** The rows of all webhooks that one call attempts. */
  function WrittenRows(table: Table, id: WorkflowId, h: Hooks, init: bool): Table {
    PutAll(table, id, h.webhooks[..Attempted(h.attempts, init)], h.attempts)
  }

  predicate RollsBack(h: Hooks, init: bool) {
    AnyBlocks(h.attempts, init) && RollBackSucceeds(h.found, h.deletes)
  }

  /** What one call leaves in the table: the rows of all attempted webhooks, rolled back if one of them blocked. */
  function Registered(table: Table, id: WorkflowId, h: Hooks, init: bool): Table {
    var written := WrittenRows(table, id, h, init);
    if RollsBack(h, init) then Others(written, id) else written
  }

  /** How one call ends: the first webhook that blocks decides, and else the work after the loop. */
  function OutcomeOf(h: Hooks, init: bool): Outcome {
    if h.webhooks == [] then NoWebhooks
    else if AnyBlocks(h.attempts, init) then
      var last := Attempted(h.attempts, init) - 1;
      ErrorOf(h.webhooks[last], h.attempts[last].cause)
    else if h.finishError.Some? then Failed(h.finishError.value)
    else AllAdded
  }

  /** The message of what a call throws, if it throws. */
  function MessageOf(outcome: Outcome): Option<string> {
    match outcome
    case PathTaken(node) =>
      Some("The URL path that the \"" + node + "\" node uses is already taken. Please change it to something else.")
    case Failed(message) => Some(message)
    case _ => None
  }

  /**
   * A call throws exactly when there is a webhook and some attempt fails, other than by a failed query
   * on init, or the work after the loop fails.
   */
  lemma ThrowsExactly(h: Hooks, init: bool)
    ensures MessageOf(OutcomeOf(h, init)).Some? <==>
      h.webhooks != []
      && (h.finishError.Some?
          || exists i :: 0 <= i < |h.attempts|
               && match h.attempts[i]
                  case Stored => false
                  case StoreFails(cause) => !(init && cause == QueryFailed)
                  case CreateFails(cause) => !(init && cause == QueryFailed))
  {
    if h.webhooks != [] && h.finishError.None? && MessageOf(OutcomeOf(h, init)).Some? {
      var i :| 0 <= i < |h.attempts| && Blocks(h.attempts[i], init);
      assert h.attempts[i].StoreFails? || h.attempts[i].CreateFails?;
    }
    forall i | 0 <= i < |h.attempts|
      ensures Blocks(h.attempts[i], init) <==> match h.attempts[i]
        case Stored => false
        case StoreFails(cause) => !(init && cause == QueryFailed)
        case CreateFails(cause) => !(init && cause == QueryFailed)
    {
    }
  }

  /** The attempt at `i` is the first that fails, where a failed query on init is no failure. */
  ghost predicate FailsFirstAt(h: Hooks, init: bool, i: nat, cause: Cause) {
    && i < |h.attempts| && (h.attempts[i] == StoreFails(cause) || h.attempts[i] == CreateFails(cause))
    && (init ==> cause != QueryFailed)
    && forall k :: 0 <= k < i ==>
      || h.attempts[k] == Stored
      || (init && (h.attempts[k] == StoreFails(QueryFailed) || h.attempts[k] == CreateFails(QueryFailed)))
  }

  lemma FirstFailureBlocks(h: Hooks, init: bool, i: nat, cause: Cause)
    requires FailsFirstAt(h, init, i, cause)
    ensures Blocks(h.attempts[i], init) && h.attempts[i].cause == cause
    ensures forall k :: 0 <= k < i ==> !Blocks(h.attempts[k], init)
  {
  }

  /** The first failure decides what is thrown: a taken path for a failed query, and else the error's own message. */
  lemma FirstFailureIsThrown(h: Hooks, init: bool, i: nat, cause: Cause)
    requires FailsFirstAt(h, init, i, cause)
    ensures MessageOf(OutcomeOf(h, init)) == Some(
      match cause
      case QueryFailed =>
        "The URL path that the \"" + h.webhooks[i].node
        + "\" node uses is already taken. Please change it to something else."
      case OtherCause(message, detail) => if detail == None then message else detail.value)
  {
    FirstFailureBlocks(h, init, i, cause);
    EndsAtBlock(map[], "", h, init, i);
  }

  /**
   * The webhooks up to the first failure have been written. If the workflow is found and all its
   * external webhooks are deleted, all rows of the workflow are removed, and no others.
   */
  lemma FirstFailureRollsBack(table: Table, id: WorkflowId, h: Hooks, init: bool, i: nat, cause: Cause)
    requires FailsFirstAt(h, init, i, cause)
    ensures var written := PutAll(table, id, h.webhooks[..i + 1], h.attempts);
      Registered(table, id, h, init)
        == if h.found && (forall d :: 0 <= d < |h.deletes| ==> h.deletes[d])
           then map key | key in written && written[key].workflowId != id :: written[key] else written
  {
    FirstFailureBlocks(h, init, i, cause);
    EndsAtBlock(table, id, h, init, i);
  }

  /** One webhook: it is in the table afterwards, unless storing it failed, whatever the service then says. */
  lemma OneWebhookStored(table: Table, id: WorkflowId, data: WebhookData, attempt: Attempt, init: bool)
    ensures var h := Answers([data], [attempt], false, [], None);
      Registered(table, id, h, init)
        == match attempt
           case StoreFails(_) => table
           case _ => table[KeyOf(data) := RowOf(id, data)]
  {
    assert [data][..1] == [data] && [data][..0] == [];
    assert PutAll(table, id, [], [attempt]) == table;
    if Blocks(attempt, init) {
      FirstBlock([attempt], init, 0);
    } else {
      NoBlock([attempt], init);
    }
  }

  /** No webhook that the call attempted was written to the table. */
  ghost predicate NothingWritten(attempts: seq<Attempt>, init: bool) {
    forall i :: 0 <= i < Attempted(attempts, init) ==> !Writes(attempts[i])
  }

  lemma {:induction false} PutNothing(table: Table, id: WorkflowId, webhooks: seq<WebhookData>, attempts: seq<Attempt>)
    requires |webhooks| <= |attempts| && forall i :: 0 <= i < |webhooks| ==> !Writes(attempts[i])
    ensures PutAll(table, id, webhooks, attempts) == table
  {
    if webhooks != [] {
      PutNothing(table, id, webhooks[..|webhooks| - 1], attempts);
    }
  }

  /**
   * A call leaves no row of the workflow exactly when a webhook blocked and the roll-back succeeded, or
   * when there was no row before and none was written. In particular an error after the loop, which is
   * not rolled back, leaves the rows in the table.
   */
  lemma NoRowIsLeftExactly(table: Table, id: WorkflowId, h: Hooks, init: bool)
    ensures HasNoRow(Registered(table, id, h, init), id)
      <==> RollsBack(h, init) || (HasNoRow(table, id) && NothingWritten(h.attempts, init))
  {
    var attempted := h.webhooks[..Attempted(h.attempts, init)];
    var written := WrittenRows(table, id, h, init);
    if NothingWritten(h.attempts, init) {
      PutNothing(table, id, attempted, h.attempts);
    } else {
      var i :| 0 <= i < |attempted| && Writes(h.attempts[i]);
      var key := KeyOf(attempted[i]);
      PutAllRows(table, id, attempted, h.attempts, key);
      assert LastWriter(attempted, h.attempts, key) >= i;
      assert key in written && written[key].workflowId == id;
    }
    ClearedHasNoRow(written, id);
  }

  /** A call leaves the rows of all other workflows as they were exactly when it wrote none of their keys. */
  lemma OthersAreSparedExactly(table: Table, id: WorkflowId, h: Hooks, init: bool)
    ensures Others(Registered(table, id, h, init), id) == Others(table, id)
      <==> forall key :: key in table && table[key].workflowId != id ==>
             !Written(h.webhooks[..Attempted(h.attempts, init)], h.attempts, key)
  {
    RollBackSparesOthersExactly(table, id, h.webhooks[..Attempted(h.attempts, init)], h.attempts);
    var written := WrittenRows(table, id, h, init);
    assert Others(Others(written, id), id) == Others(written, id);
  }

  /** A taken path: the row of the other workflow is overwritten, and the roll-back of a failed creation deletes it. */
  lemma TakenPathIsLost(id: WorkflowId, other: Row, data: WebhookData, init: bool, message: string)
    requires other.workflowId != id
    ensures var h := Answers([data], [CreateFails(OtherCause(message, None))], true, [], None);
      Registered(map[KeyOf(data) := other], id, h, init) == map[]
  {
    var table := map[KeyOf(data) := other];
    var attempts := [CreateFails(OtherCause(message, None))];
    var h: Hooks := Answers([data], attempts, true, [], None);
    assert Blocks(attempts[0], init) && Attempted(attempts, init) == 1;
    assert [data][..1] == [data] && [data][..0] == [];
    assert PutAll(table, id, [], attempts) == table;
    assert WrittenRows(table, id, h, init) == map[KeyOf(data) := RowOf(id, data)];
    assert Others(WrittenRows(table, id, h, init), id) == map[];
  }

  ghost predicate Lists(h: Hooks, key: (string, string)) {
    exists i :: 0 <= i < |h.webhooks| && KeyOf(h.webhooks[i]) == key
  }

  predicate SameRow(table: Table, after: Table, key: (string, string)) {
    (key in after <==> key in table) && (key in table ==> after[key] == table[key])
  }

  /** A call touches only the keys it lists and the rows of its workflow. */
  lemma RegisteredKeeps(table: Table, id: WorkflowId, h: Hooks, init: bool, key: (string, string))
    requires !Lists(h, key) && (key in table ==> table[key].workflowId != id)
    ensures SameRow(table, Registered(table, id, h, init), key)
  {
    var attempted := h.webhooks[..Attempted(h.attempts, init)];
    PutAllRows(table, id, attempted, h.attempts, key);
    assert LastWriter(attempted, h.attempts, key) == -1;
  }

  // ---------- complete and repeated runs ----------

  ghost predicate AllWritten(attempts: seq<Attempt>) {
    forall i :: 0 <= i < |attempts| ==> Writes(attempts[i])
  }

  ghost predicate DistinctKeys(webhooks: seq<WebhookData>) {
    forall i, j :: 0 <= i < j < |webhooks| ==> KeyOf(webhooks[i]) != KeyOf(webhooks[j])
  }

  /** A run in which nothing fails registers every listed webhook, the last one of each key. */
  lemma SuccessStoresAll(table: Table, id: WorkflowId, webhooks: seq<WebhookData>, attempts: seq<Attempt>, i: nat)
    requires |webhooks| == |attempts| && AllWritten(attempts) && i < |webhooks|
    ensures var after := PutAll(table, id, webhooks, attempts);
      && KeyOf(webhooks[i]) in after && after[KeyOf(webhooks[i])].workflowId == id
      && (DistinctKeys(webhooks) ==> after[KeyOf(webhooks[i])] == RowOf(id, webhooks[i]))
  {
    var key := KeyOf(webhooks[i]);
    PutAllRows(table, id, webhooks, attempts, key);
    assert LastWriter(webhooks, attempts, key) >= i;
  }

  /**
   * Repeating a complete run changes nothing; nor does one of which the database refuses any part, when
   * no key repeats.
   */
  lemma RepeatedRunChangesNothing(table: Table, id: WorkflowId, webhooks: seq<WebhookData>, attempts: seq<Attempt>,
                                  again: seq<Attempt>)
    requires |webhooks| == |attempts| == |again| && AllWritten(attempts)
    requires AllWritten(again) || DistinctKeys(webhooks)
    ensures var after := PutAll(table, id, webhooks, attempts);
      PutAll(after, id, webhooks, again) == after
  {
    var after := PutAll(table, id, webhooks, attempts);
    var twice := PutAll(after, id, webhooks, again);
    forall key ensures (key in twice <==> key in after) && (key in after ==> twice[key] == after[key]) {
      PutAllRows(table, id, webhooks, attempts, key);
      PutAllRows(after, id, webhooks, again, key);
      var (i, j) := (LastWriter(webhooks, attempts, key), LastWriter(webhooks, again, key));
      if j >= 0 {
        assert i >= j && KeyOf(webhooks[j]) == KeyOf(webhooks[i]);
      }
    }
  }

  /**
   * A restart: after a complete registration, a second one on init in which any of the queries fail is
   * passed over, throws nothing, and leaves every row as it was.
   */
  lemma RestartChangesNothing(table: Table, id: WorkflowId, h: Hooks, again: Hooks)
    requires again.webhooks == h.webhooks && DistinctKeys(h.webhooks)
    requires forall i :: 0 <= i < |h.attempts| ==> h.attempts[i] == Stored
    requires forall i :: 0 <= i < |again.attempts| ==>
      again.attempts[i] == Stored || again.attempts[i] == StoreFails(QueryFailed)
      || again.attempts[i] == CreateFails(QueryFailed)
    ensures var after := Registered(table, id, h, true);
      && Registered(after, id, again, true) == after
      && (forall i :: 0 <= i < |h.webhooks| ==>
          KeyOf(h.webhooks[i]) in after && after[KeyOf(h.webhooks[i])] == RowOf(id, h.webhooks[i]))
      && (again.finishError == None ==> MessageOf(OutcomeOf(again, true)) == None)
  {
    RepeatedCallChangesNothing(table, id, h, again, true);
    NoBlock(h.attempts, true);
    assert h.webhooks[..|h.webhooks|] == h.webhooks;
    forall i | 0 <= i < |h.webhooks|
      ensures var after := Registered(table, id, h, true);
        KeyOf(h.webhooks[i]) in after && after[KeyOf(h.webhooks[i])] == RowOf(id, h.webhooks[i])
    {
      SuccessStoresAll(table, id, h.webhooks, h.attempts, i);
    }
  }

  /**
   * A call that does not throw after one that wrote everything: on init, say, where refused inserts are
   * passed over.
   */
  lemma RepeatedCallChangesNothing(table: Table, id: WorkflowId, h: Hooks, again: Hooks, init: bool)
    requires again.webhooks == h.webhooks && AllWritten(h.attempts)
    requires !AnyBlocks(h.attempts, init) && !AnyBlocks(again.attempts, init)
    requires AllWritten(again.attempts) || DistinctKeys(h.webhooks)
    ensures var after := Registered(table, id, h, init);
      Registered(after, id, again, init) == after
  {
    NoBlock(h.attempts, init);
    NoBlock(again.attempts, init);
    assert h.webhooks[..|h.webhooks|] == h.webhooks;
    RepeatedRunChangesNothing(table, id, h.webhooks, h.attempts, again.attempts);
  }

  // ---------- the manager's methods ----------

  /** The loop is left at the first webhook that blocks. */
  lemma FirstBlock(attempts: seq<Attempt>, init: bool, i: nat)
    requires i < |attempts| && Blocks(attempts[i], init)
    requires forall k :: 0 <= k < i ==> !Blocks(attempts[k], init)
    ensures AnyBlocks(attempts, init) && Attempted(attempts, init) == i + 1
  {
    var n := Attempted(attempts, init);
    assert n < |attempts| ==> Blocks(attempts[n - 1], init);
    if i < n - 1 {
      assert false;
    }
  }

  lemma NoBlock(attempts: seq<Attempt>, init: bool)
    requires forall k :: 0 <= k < |attempts| ==> !Blocks(attempts[k], init)
    ensures !AnyBlocks(attempts, init) && Attempted(attempts, init) == |attempts|
  {
  }

  lemma PutOneMore(table: Table, id: WorkflowId, h: Hooks, i: nat)
    requires i < |h.webhooks|
    ensures PutAll(table, id, h.webhooks[..i + 1], h.attempts)
      == Put(PutAll(table, id, h.webhooks[..i], h.attempts), id, h.webhooks[i], h.attempts[i])
  {
    assert h.webhooks[..i + 1][..i] == h.webhooks[..i];
  }

  lemma EndsAtBlock(table: Table, id: WorkflowId, h: Hooks, init: bool, i: nat)
    requires i < |h.attempts| && Blocks(h.attempts[i], init)
    requires forall k :: 0 <= k < i ==> !Blocks(h.attempts[k], init)
    ensures OutcomeOf(h, init) == ErrorOf(h.webhooks[i], h.attempts[i].cause)
    ensures var written := PutAll(table, id, h.webhooks[..i + 1], h.attempts);
      Registered(table, id, h, init) == if RollBackSucceeds(h.found, h.deletes) then Others(written, id) else written
  {
    FirstBlock(h.attempts, init, i);
  }

  lemma EndsAfterLoop(table: Table, id: WorkflowId, h: Hooks, init: bool)
    requires forall k :: 0 <= k < |h.attempts| ==> !Blocks(h.attempts[k], init)
    ensures Registered(table, id, h, init) == PutAll(table, id, h.webhooks[..|h.webhooks|], h.attempts)
    ensures OutcomeOf(h, init)
      == if h.webhooks == [] then NoWebhooks
         else if h.finishError.Some? then Failed(h.finishError.value) else AllAdded
  {
    NoBlock(h.attempts, init);
  }

  class WebhookRegistrar {
    var table: Table

    constructor (table: Table)
      ensures this.table == table
    {
      this.table := table;
    }

    /**
     * Deletes the rows of a workflow, after the external services have been told. It does not get
     * that far when the workflow is not found or one of the services fails.
     */
    method ClearWebhooks(id: WorkflowId, found: bool, deletes: seq<bool>) returns (cleared: bool)
      modifies this
      ensures cleared == RollBackSucceeds(found, deletes)
      ensures table == if cleared then Others(old(table), id) else old(table)
    {
      if !found {
        return false;
      }
      for i := 0 to |deletes|
        invariant forall k :: 0 <= k < i ==> deletes[k]
      {
        if !deletes[i] {
          return false;
        }
      }
      table := map key | key in table && table[key].workflowId != id :: table[key];
      cleared := true;
    }

    method StoreWebhook(id: WorkflowId, data: WebhookData, attempt: Attempt)
      modifies this
      ensures table == Put(old(table), id, data, attempt)
    {
      if Writes(attempt) {
        table := table[KeyOf(data) := RowOf(id, data)];
      }
    }

    /** Registers the listed webhooks; an error after the loop is not rolled back. */
    method AddWebhooks(id: WorkflowId, h: Hooks, init: bool) returns (outcome: Outcome)
      modifies this
      ensures outcome == OutcomeOf(h, init)
      ensures table == Registered(old(table), id, h, init)
    {
      if |h.webhooks| == 0 {
        EndsAfterLoop(table, id, h, init);
        return NoWebhooks;
      }
      var i := StoreUntilBlocked(id, h, init);
      if i < |h.webhooks| {
        EndsAtBlock(old(table), id, h, init, i);
        outcome := RollBack(id, h.webhooks[i], h.attempts[i].cause, h.found, h.deletes);
      } else {
        EndsAfterLoop(old(table), id, h, init);
        outcome := if h.finishError.Some? then Failed(h.finishError.value) else AllAdded;
      }
    }

    /** The loop: it stops behind the first webhook that blocks, or at the end. */
    method StoreUntilBlocked(id: WorkflowId, h: Hooks, init: bool) returns (i: nat)
      modifies this
      ensures i <= |h.webhooks| && forall k :: 0 <= k < i ==> !Blocks(h.attempts[k], init)
      ensures i < |h.webhooks| ==>
        Blocks(h.attempts[i], init) && table == PutAll(old(table), id, h.webhooks[..i + 1], h.attempts)
      ensures i == |h.webhooks| ==> table == PutAll(old(table), id, h.webhooks[..i], h.attempts)
    {
      i := 0;
      while i < |h.webhooks|
        invariant i <= |h.webhooks| && table == PutAll(old(table), id, h.webhooks[..i], h.attempts)
        invariant forall k :: 0 <= k < i ==> !Blocks(h.attempts[k], init)
      {
        PutOneMore(old(table), id, h, i);
        StoreWebhook(id, h.webhooks[i], h.attempts[i]);
        if Blocks(h.attempts[i], init) {
          return;
        }
        i := i + 1;
      }
    }

    method RollBack(id: WorkflowId, data: WebhookData, cause: Cause, found: bool, deletes: seq<bool>)
      returns (outcome: Outcome)
      modifies this
      ensures outcome == ErrorOf(data, cause)
      ensures table == if RollBackSucceeds(found, deletes) then Others(old(table), id) else old(table)
    {
      var _ := ClearWebhooks(id, found, deletes);
      outcome := match cause
        case QueryFailed => PathTaken(data.node)
        case OtherCause(message, detail) => Failed(if detail.Some? then detail.value else message);
    }
  }
}
