/**
 * The developer dashboard: the realtime feed that keeps the store current,
 * the status counts, the avatar initials, the shortened descriptions and
 * the badge colours and labels. The detail dialog writes out the same colour
 * maps, label and initials, and the user dashboard the same colour maps and
 * label; they are modelled once, here.
 */
module DeveloperDashboard {
  import opened Wrappers
  import opened JsText
  import opened Types
  import opened Store

  // ---- badge colours and labels

  datatype Colour = Red | Yellow | Green | Blue | Purple | Grey

  /** `getStatusColor`: one colour per known status, grey for anything else. */
  function StatusColour(status: JsString): (c: Colour)
    ensures c == Grey <==> !ValidStatus(status)
    ensures status == Open.Text() ==> c == Red
    ensures status == InProgress.Text() ==> c == Yellow
    ensures status == Closed.Text() ==> c == Green
  {
    if status == Open.Text() then Red
    else if status == InProgress.Text() then Yellow
    else if status == Closed.Text() then Green
    else Grey
  }

  /** `getTypeColor`: one colour per known type, grey for anything else. */
  function TypeColour(taskType: JsString): (c: Colour)
    ensures c == Grey <==> taskType != Bug.Text() && taskType != Improvement.Text() && taskType != Feature.Text()
    ensures taskType == Bug.Text() ==> c == Red
    ensures taskType == Improvement.Text() ==> c == Blue
    ensures taskType == Feature.Text() ==> c == Purple
  {
    if taskType == Bug.Text() then Red
    else if taskType == Improvement.Text() then Blue
    else if taskType == Feature.Text() then Purple
    else Grey
  }

  /** `status.replace("-", " ")`, the text of the status badge. */
  function StatusLabel(status: JsString): (text: JsString)
    ensures |text| == |status|
  {
    ReplaceFirst(status, Hyphen, Space)
  }

  /** `in-progress` reads `in progress`. */
  lemma InProgressLabel()
    ensures StatusLabel(InProgress.Text()) == Str("in progress")
  {
    var head, tail := Str("in"), Str("progress");
    assert InProgress.Text() == head + [Hyphen] + tail;
    assert Str("in progress") == head + [Space] + tail;
    assert Hyphen !in head;
    OnlyFirstHyphen(head, tail);
  }

  /** Statuses without a hyphen are shown as they are. */
  lemma PlainStatusLabels()
    ensures StatusLabel(Open.Text()) == Open.Text()
    ensures StatusLabel(Closed.Text()) == Closed.Text()
  {
    assert Hyphen !in Open.Text();
    assert Hyphen !in Closed.Text();
  }

  /** Only the first hyphen is replaced. */
  lemma {:induction false} OnlyFirstHyphen(s: JsString, t: JsString)
    requires Hyphen !in s
    ensures StatusLabel(s + [Hyphen] + t) == s + [Space] + t
  {
    var whole := s + [Hyphen] + t;
    assert IndexOf(whole, Hyphen) == |s| by {
      assert whole[..|s|] == s;
    }
    assert whole[..|s|] == s && whole[|s| + 1..] == t;
  }

  // ---- avatar initials

  /** `n[0]` rendered by `join`: the first unit, or nothing for an empty segment (`undefined` joins as ""). */
  function FirstUnit(n: JsString): (r: JsString)
    ensures |r| == if n == [] then 0 else 1
  {
    if n == [] then [] else [n[0]]
  }

  /** `parts.map(n => n[0])` */
  function Heads(parts: seq<JsString>): (r: seq<JsString>)
    ensures |r| == |parts|
  {
    seq(|parts|, i requires 0 <= i < |parts| => FirstUnit(parts[i]))
  }

  /** `name.split(" ").map(n => n[0]).join("").toUpperCase()` */
  function GetInitials(name: JsString): (r: JsString)
    ensures r == ToUpperAscii(WordStarts(name, true))
  {
    HeadsOfSplit(name);
    ToUpperAscii(Concat(Heads(Split(name, Space))))
  }

  /**
   * The units that begin a word: a non-space unit at the start or after a
   * space (`atBoundary` says whether the unit before `s` was a space, or
   * there was none).
   */
  function WordStarts(s: JsString, atBoundary: bool): JsString {
    if s == [] then []
    else (if atBoundary && s[0] != Space then [s[0]] else []) + WordStarts(s[1..], s[0] == Space)
  }

  lemma HeadsConcat(parts: seq<JsString>)
    requires parts != []
    ensures Concat(Heads(parts)) == FirstUnit(parts[0]) + Concat(Heads(parts[1..]))
  {
    assert Heads(parts)[1..] == Heads(parts[1..]);
  }

  lemma {:induction false} HeadsOfSplit(s: JsString)
    ensures Concat(Heads(Split(s, Space))) == WordStarts(s, true)
    ensures Concat(Heads(Split(s, Space)[1..])) == WordStarts(s, false)
  {
    if s == [] {
      assert Split(s, Space)[1..] == [];
      HeadsConcat(Split(s, Space));
    } else {
      var rest := Split(s[1..], Space);
      HeadsOfSplit(s[1..]);
      if s[0] == Space {
        assert Split(s, Space) == [[]] + rest;
        assert (([[]] + rest)[1..]) == rest;
        HeadsConcat([[]] + rest);
      } else {
        var parts := [[s[0]] + rest[0]] + rest[1..];
        assert Split(s, Space) == parts;
        assert parts[1..] == rest[1..];
        HeadsConcat(parts);
      }
    }
  }

  /** `task.submittedByName || "Unknown"`: an empty name shows as `Unknown`. */
  function AvatarName(submittedByName: JsString): (r: JsString)
    ensures r != []
    ensures submittedByName != [] ==> r == submittedByName
    ensures submittedByName == [] ==> r == Str("Unknown")
  {
    if submittedByName == [] then Str("Unknown") else submittedByName
  }

  /** A task without a submitter name shows the initial `U`. */
  lemma UnknownSubmitterInitial()
    ensures GetInitials(AvatarName([])) == Str("U")
  {
    var unknown := Str("Unknown");
    assert unknown == [0x55, 0x6E, 0x6B, 0x6E, 0x6F, 0x77, 0x6E];
    NoSeparatorSplit(unknown, Space);
    assert Heads([unknown]) == [[unknown[0]]];
    assert Concat([[unknown[0]]]) == [unknown[0]];
  }

  // ---- status counts and card text

  /** The statuses of the tasks, in list order. */
  function Statuses(tasks: seq<Task>): (r: seq<JsString>)
    ensures |r| == |tasks| && forall i :: 0 <= i < |tasks| ==> r[i] == tasks[i].status
  {
    seq(|tasks|, i requires 0 <= i < |tasks| => tasks[i].status)
  }

  /** `tasks.filter(task => task.status === status).length` */
  function CountStatus(tasks: seq<Task>, status: TaskStatus): (r: nat)
    ensures r == multiset(Statuses(tasks))[status.Text()]
    ensures r <= |tasks|
    ensures (forall i :: 0 <= i < |tasks| ==> tasks[i].status != status.Text()) ==> r == 0
    ensures (forall i :: 0 <= i < |tasks| ==> tasks[i].status == status.Text()) ==> r == |tasks|
  {
    if tasks == [] then 0
    else
      assert Statuses(tasks) == [tasks[0].status] + Statuses(tasks[1..]);
      (if tasks[0].status == status.Text() then 1 else 0) + CountStatus(tasks[1..], status)
  }

  /** When every status is one the type declares, the three counts add up to the number of tasks. */
  lemma {:induction false} CountsAddUp(tasks: seq<Task>)
    requires forall i :: 0 <= i < |tasks| ==> ValidStatus(tasks[i].status)
    ensures CountStatus(tasks, Open) + CountStatus(tasks, InProgress) + CountStatus(tasks, Closed) == |tasks|
  {
    if tasks != [] {
      CountsAddUp(tasks[1..]);
    }
  }

  /** Whatever the statuses, the three counts never exceed the number of tasks. */
  lemma {:induction false} CountsBounded(tasks: seq<Task>)
    ensures CountStatus(tasks, Open) + CountStatus(tasks, InProgress) + CountStatus(tasks, Closed) <= |tasks|
  {
    if tasks != [] {
      CountsBounded(tasks[1..]);
    }
  }

  /** The description on a card: at most 150 units, then `...`. */
  function CardDescription(description: JsString): (r: JsString)
    ensures |description| <= 150 ==> r == description
    ensures |description| > 150 ==> r == description[..150] + Str("...")
  {
    Truncate(description, 150)
  }

  // ---- the realtime feed

  const CreateEvent := Str("databases.*.collections.*.documents.*.create")
  const UpdateEvent := Str("databases.*.collections.*.documents.*.update")

  /** One pushed message: its event names and the document it carries. */
  datatype RealtimeMessage = RealtimeMessage(events: seq<JsString>, payload: Task)

  /** The store action a message asks for: create wins over update, anything else is ignored. */
  function Dispatch(m: RealtimeMessage): (a: Option<Action>)
    ensures CreateEvent in m.events ==> a == Some(AddTask(m.payload))
    ensures CreateEvent !in m.events && UpdateEvent in m.events ==> a == Some(UpdateTask(m.payload.id, FullPatch(m.payload)))
    ensures CreateEvent !in m.events && UpdateEvent !in m.events ==> a == None
  {
    if CreateEvent in m.events then Some(AddTask(m.payload))
    else if UpdateEvent in m.events then Some(UpdateTask(m.payload.id, FullPatch(m.payload)))
    else None
  }

  /** The store after a message has been handled. */
  function ApplyMessage(s: StoreState, m: RealtimeMessage): (r: StoreState)
    ensures r.user == s.user && r.isLoading == s.isLoading
    ensures |r.tasks| == |s.tasks| + (if CreateEvent in m.events then 1 else 0)
    ensures CreateEvent !in m.events && UpdateEvent !in m.events ==> r == s
  {
    match Dispatch(m)
    case None => s
    case Some(a) => Step(s, a)
  }

  /** A create message puts the payload in front of the list (also when it carries the update tag). */
  lemma CreateMessagePrepends(s: StoreState, m: RealtimeMessage)
    requires CreateEvent in m.events
    ensures ApplyMessage(s, m) == s.(tasks := [m.payload] + s.tasks)
    ensures |ApplyMessage(s, m).tasks| == |s.tasks| + 1
  {}

  /**
   * An update message replaces every task that has the payload's id by the
   * payload itself, and leaves the others, the user and the loading flag alone.
   */
  lemma UpdateMessageReplaces(s: StoreState, m: RealtimeMessage)
    requires CreateEvent !in m.events && UpdateEvent in m.events
    ensures var r := ApplyMessage(s, m);
      && |r.tasks| == |s.tasks| && r.user == s.user && r.isLoading == s.isLoading
      && (forall i :: 0 <= i < |s.tasks| ==>
            r.tasks[i] == if s.tasks[i].id == m.payload.id then m.payload else s.tasks[i])
  {
    forall i | 0 <= i < |s.tasks| && s.tasks[i].id == m.payload.id
      ensures ApplyMessage(s, m).tasks[i] == m.payload
    {
      MergeFull(s.tasks[i], m.payload);
    }
  }

  /** A message with neither tag leaves the store as it was. */
  lemma OtherMessageIgnored(s: StoreState, m: RealtimeMessage)
    requires CreateEvent !in m.events && UpdateEvent !in m.events
    ensures ApplyMessage(s, m) == s
  {}

  /**
   * A developer's own status change followed by the update message the
   * change triggers ends where the message alone would have: the payload
   * replaces the locally patched task.
   */
  lemma StatusChangeThenEcho(s: StoreState, taskId: JsString, status: JsString, m: RealtimeMessage)
    requires CreateEvent !in m.events && UpdateEvent in m.events && m.payload.id == taskId
    ensures ApplyMessage(Step(s, UpdateTask(taskId, StatusPatch(status))), m) == ApplyMessage(s, m)
  {
    var local := Step(s, UpdateTask(taskId, StatusPatch(status)));
    forall i | 0 <= i < |s.tasks|
      ensures ApplyMessage(local, m).tasks[i] == ApplyMessage(s, m).tasks[i]
    {
      MergeStatus(s.tasks[i], status);
      MergeFull(local.tasks[i], m.payload);
      MergeFull(s.tasks[i], m.payload);
    }
  }

  /** The component's own state: the loading flag, true until the first fetch settles. */
  class DeveloperDashboardView {
    var isLoading: bool

    constructor ()
      ensures isLoading
    {
      isLoading := true;
    }

    /** `initializeUser`: a found account becomes the store user, marked as a developer; a failure changes nothing. */
    method InitializeUser(store: AppStore, account: Result<Account>)
      modifies store
      ensures account.Success? ==> store.State() == Step(old(store.State()), SetUser(Some(UserFromAccount(account.value, true))))
      ensures account.Failure? ==> store.State() == old(store.State())
    {
      if account.Success? {
        store.SetUser(Some(UserFromAccount(account.value, true)));
      }
    }

    /** `fetchAllTasks`: a listing replaces the store's tasks; success or not, loading ends. */
    method FetchAllTasks(store: AppStore, listing: Result<seq<Task>>)
      modifies this, store
      ensures !isLoading
      ensures listing.Success? ==> store.State() == Step(old(store.State()), SetTasks(listing.value))
      ensures listing.Failure? ==> store.State() == old(store.State())
    {
      if listing.Success? {
        store.SetTasks(listing.value);
      }
      isLoading := false;
    }

    /** The subscription callback: one pushed message applied to the store. */
    method HandleRealtimeMessage(store: AppStore, m: RealtimeMessage)
      modifies store
      ensures store.State() == ApplyMessage(old(store.State()), m)
    {
      var task := m.payload;
      if CreateEvent in m.events {
        store.AddTask(task);
      } else if UpdateEvent in m.events {
        store.UpdateTask(task.id, FullPatch(task));
      }
    }
  }
}
