/**
 * The shell of services/dashboard/components/chat-shell.tsx: the list of conversations, the
 * two effects that follow every render, and the handlers of the user's actions.
 */
module ChatShell {
  import opened Wrappers
  import opened Text
  import opened ChatTypes
  import opened Branches
  import opened StreamSpec
  import opened ConversationStreams

  /** A conversation of the list; `faulted` records that an update of it threw. */
  datatype Entry = Entry(id: ConvoId, tree: Conversation, faulted: bool)

  function Find(cs: seq<Entry>, k: ConvoId): Option<Entry>
  {
    if cs == [] then None else if cs[0].id == k then Some(cs[0]) else Find(cs[1..], k)
  }

  function Stored(e: Entry, r: TreeResult): Entry
  {
    match r
    case Ok(c) => e.(tree := c)
    case Err(_) => e.(faulted := true)
  }

  /** The tree updates that the shell queues. */
  datatype Update =
    | ArchiveUpdate(completion: Completion)
    | GroundUpdate(patch: GroundingPatch)
    | AppendUpdate(parent: Option<NodeId>, node: Node)
    | ForkUpdate(target: NodeId, node: Node)
    | SwitchUpdate(current: NodeId, sibling: NodeId)
    | PathUpdate(repointed: Conversation)
  {
    function Apply(c: Conversation): TreeResult
    {
      match this
      case ArchiveUpdate(k) => ArchiveInto(c, k)
      case GroundUpdate(p) => Ok(GroundInto(c, p))
      case AppendUpdate(parent, n) => AppendChildOf(c, parent, n)
      case ForkUpdate(target, n) => Fork(c, target, n)
      case SwitchUpdate(current, sibling) => SwitchToSibling(c, current, sibling)
      case PathUpdate(d) => Ok(d)
    }
  }

  /** `prev.map(c => c.id === k ? u(c) : c)`. */
  function Mapped(cs: seq<Entry>, k: ConvoId, u: Update): seq<Entry>
  {
    if cs == [] then []
    else [if cs[0].id == k then Stored(cs[0], u.Apply(cs[0].tree)) else cs[0]] + Mapped(cs[1..], k, u)
  }

  lemma {:induction false} FindMapped(cs: seq<Entry>, k: ConvoId, u: Update, j: ConvoId)
    ensures Find(Mapped(cs, k, u), j) ==
            match Find(cs, j)
            case None => None
            case Some(e) => Some(if j == k then Stored(e, u.Apply(e.tree)) else e)
  {
    if cs != [] {
      FindMapped(cs[1..], k, u, j);
      assert Mapped(cs, k, u)[1..] == Mapped(cs[1..], k, u);
    }
  }

  /** `prev.filter(c => c.id !== k)`. */
  function Without(cs: seq<Entry>, k: ConvoId): seq<Entry>
  {
    if cs == [] then []
    else (if cs[0].id == k then [] else [cs[0]]) + Without(cs[1..], k)
  }

  lemma {:induction false} FindWithout(cs: seq<Entry>, k: ConvoId, j: ConvoId)
    ensures Find(Without(cs, k), j) == if j == k then None else Find(cs, j)
  {
    if cs != [] {
      FindWithout(cs[1..], k, j);
      if cs[0].id == k {
        assert Without(cs, k) == Without(cs[1..], k);
      } else {
        assert Without(cs, k)[1..] == Without(cs[1..], k);
      }
    }
  }

  function ArchivedOf(keys: set<(ConvoId, NodeId)>, k: ConvoId): set<NodeId>
  {
    set p | p in keys && p.0 == k :: p.1
  }

  lemma ArchivedHas(keys: set<(ConvoId, NodeId)>, k: ConvoId, id: NodeId)
    ensures id in ArchivedOf(keys, k) <==> (k, id) in keys
  {
    if (k, id) in keys {
      assert (k, id).0 == k;
    }
  }

  lemma ArchivedAdd(keys: set<(ConvoId, NodeId)>, k: ConvoId, id: NodeId, j: ConvoId)
    ensures ArchivedOf(keys + {(k, id)}, j) == ArchivedOf(keys, j) + if j == k then {id} else {}
  {
    forall x
      ensures x in ArchivedOf(keys + {(k, id)}, j) <==> x in ArchivedOf(keys, j) + if j == k then {id} else {}
    {
      ArchivedHas(keys, j, x);
      ArchivedHas(keys + {(k, id)}, j, x);
    }
  }

  /** The slice of a conversation as the shell's fields hold it. */
  ghost function Assemble(e: Option<Entry>, view: HookView, keys: set<(ConvoId, NodeId)>,
                          applied: map<ConvoId, nat>, k: ConvoId): Slice
  {
    Slice(if e.Some? then Some(e.value.tree) else None,
          e.Some? && e.value.faulted,
          view, ArchivedOf(keys, k), Lookup(applied, k))
  }

  lemma ArchiveIdle(s: Slice)
    requires s.hook.stream.None?
    ensures Archive(s) == s
  {
  }

  class Shell {
    const hook: Streams
    var conversations: seq<Entry>
    var archivedKeys: set<(ConvoId, NodeId)>
    var appliedGrounding: map<ConvoId, nat>

    constructor (hook: Streams)
      ensures this.hook == hook && conversations == [] && archivedKeys == {} && appliedGrounding == map[]
    {
      this.hook := hook;
      conversations, archivedKeys, appliedGrounding := [], {}, map[];
    }

    /** Everything that concerns conversation `k`. */
    ghost function SliceOf(k: ConvoId): Slice
      reads this, hook, if k in hook.controllers then {hook.controllers[k]} else {}
    {
      Assemble(Find(conversations, k), hook.View(k), archivedKeys, appliedGrounding, k)
    }

    // ---------- The effects ----------

    /** One turn of the archive effect's loop. */
    method ArchiveOne(k: ConvoId, state: StreamState)
      requires hook.Valid() && k in hook.streams && hook.streams[k] == state
      modifies this`conversations, this`archivedKeys, hook`streams
      ensures hook.Valid()
      ensures SliceOf(k) == Archive(old(SliceOf(k)))
      ensures forall j :: j != k ==> SliceOf(j) == old(SliceOf(j))
      ensures hook.streams.Keys == old(hook.streams.Keys)
      ensures forall j :: j in hook.streams ==> hook.streams[j].patch == old(hook.streams)[j].patch
      ensures forall j :: j in hook.streams && j != k ==> hook.streams[j] == old(hook.streams)[j]
    {
      if state.completion.None? {
        return;
      }
      var completion := state.completion.value;
      ArchivedHas(archivedKeys, k, completion.id);
      if (k, completion.id) in archivedKeys {
        return;
      }
      ghost var cs, keys := conversations, archivedKeys;
      archivedKeys := archivedKeys + {(k, completion.id)};
      var update := ArchiveUpdate(completion);
      conversations := Mapped(conversations, k, update);
      hook.ClearCompletion(k);
      forall j
        ensures ArchivedOf(archivedKeys, j) == ArchivedOf(keys, j) + if j == k then {completion.id} else {}
      {
        ArchivedAdd(keys, k, completion.id, j);
      }
      forall j
        ensures Find(conversations, j) ==
                match Find(cs, j)
                case None => None
                case Some(e) => Some(if j == k then Stored(e, update.Apply(e.tree)) else e)
      {
        FindMapped(cs, k, update, j);
      }
    }

    /** The archive effect: every conversation's pending completion, in any order. */
    method ArchiveEffect()
      requires hook.Valid()
      modifies this`conversations, this`archivedKeys, hook`streams
      ensures hook.Valid()
      ensures forall k :: SliceOf(k) == Archive(old(SliceOf(k)))
      ensures hook.streams.Keys == old(hook.streams.Keys)
      ensures forall k :: k in hook.streams ==> hook.streams[k].patch == old(hook.streams)[k].patch
    {
      hide Archive, ArchivedOf, Find;
      var rendered := hook.streams;
      var todo := rendered.Keys;
      while todo != {}
        invariant todo <= rendered.Keys && hook.Valid()
        invariant hook.streams.Keys == rendered.Keys
        invariant forall k :: k in todo ==> hook.streams[k] == rendered[k]
        invariant forall k :: k in hook.streams ==> hook.streams[k].patch == rendered[k].patch
        invariant forall k ::
                    SliceOf(k) == if k in rendered && k !in todo then Archive(old(SliceOf(k))) else old(SliceOf(k))
        decreases |todo|
      {
        var k :| k in todo;
        ArchiveOne(k, rendered[k]);
        todo := todo - {k};
      }
      forall k
        ensures SliceOf(k) == Archive(old(SliceOf(k)))
      {
        if k !in rendered {
          ArchiveIdle(old(SliceOf(k)));
        }
      }
    }

    /** One turn of the grounding effect's loop. */
    method GroundOne(k: ConvoId, patch: Option<GroundingPatch>)
      requires k in hook.streams && hook.streams[k].patch == patch
      modifies this`conversations, this`appliedGrounding
      ensures SliceOf(k) == Ground(old(SliceOf(k)))
      ensures forall j :: j != k ==> SliceOf(j) == old(SliceOf(j))
    {
      if patch.None? {
        return;
      }
      if k in appliedGrounding && appliedGrounding[k] == patch.value.serial {
        return;
      }
      appliedGrounding := appliedGrounding[k := patch.value.serial];
      Queue(k, GroundUpdate(patch.value));
    }

    /** `setConversations` with an update of one conversation. */
    method Queue(k: ConvoId, u: Update)
      modifies this`conversations
      ensures forall j :: Find(conversations, j) ==
                match Find(old(conversations), j)
                case None => None
                case Some(e) => Some(if j == k then Stored(e, u.Apply(e.tree)) else e)
    {
      ghost var cs := conversations;
      conversations := Mapped(conversations, k, u);
      forall j
        ensures Find(conversations, j) ==
                match Find(cs, j)
                case None => None
                case Some(e) => Some(if j == k then Stored(e, u.Apply(e.tree)) else e)
      {
        FindMapped(cs, k, u, j);
      }
    }

    /** The grounding effect, over the streams as they were rendered. */
    method GroundingEffect(rendered: map<ConvoId, StreamState>)
      requires hook.streams.Keys == rendered.Keys
      requires forall k :: k in rendered ==> hook.streams[k].patch == rendered[k].patch
      modifies this`conversations, this`appliedGrounding
      ensures forall k :: SliceOf(k) == Ground(old(SliceOf(k)))
    {
      var todo := rendered.Keys;
      while todo != {}
        invariant todo <= rendered.Keys
        invariant forall k ::
                    SliceOf(k) == if k in rendered && k !in todo then Ground(old(SliceOf(k))) else old(SliceOf(k))
        decreases |todo|
      {
        var k :| k in todo;
        GroundOne(k, rendered[k].patch);
        todo := todo - {k};
      }
    }

    /** A render and its effects, for all conversations at once. */
    method Render()
      requires hook.Valid()
      modifies this`conversations, this`archivedKeys, this`appliedGrounding, hook`streams
      ensures hook.Valid()
      ensures forall k :: SliceOf(k) == Flush(old(SliceOf(k)))
    {
      var rendered := hook.streams;
      ArchiveEffect();
      GroundingEffect(rendered);
    }

    // ---------- The user's actions ----------

    ghost predicate Walkable(k: ConvoId)
      reads this
    {
      Find(conversations, k).Some? ==> Acyclic(Find(conversations, k).value.tree)
    }

    method IsBusy(k: ConvoId) returns (busy: bool)
      ensures busy <==> IsRunning(SliceOf(k))
    {
      var running := hook.RunningIds();
      busy := k in running;
    }

    /** Send a question in an open conversation; `history` is the context handed to the server. */
    method HandleSubmit(k: ConvoId, question: string, newId: NodeId)
      returns (history: seq<Turn>, started: AbortController?)
      requires hook.Valid() && Walkable(k)
      modifies this`conversations, hook
      ensures hook.Valid()
      ensures started != null ==>
                k !in old(hook.controllers) && fresh(started) && hook.controllers == old(hook.controllers)[k := started]
      ensures started == null ==> hook.controllers == old(hook.controllers)
      ensures SliceOf(k) == SubmitTurn(old(SliceOf(k)), question, newId)
      ensures forall j :: j != k ==> SliceOf(j) == old(SliceOf(j))
      ensures started != null ==>
                old(SliceOf(k)).tree.Some? && history == History(old(SliceOf(k)).tree.value, None)
    {
      hide AppendChildOf, History, Acyclic, PathFrom, Begin, Trim;
      history, started := [], null;
      var trimmed := Trim(question);
      if trimmed == "" {
        return;
      }
      var busy := IsBusy(k);
      var c := Find(conversations, k);
      if busy || c.None? {
        return;
      }
      var leaf := ActiveLeaf(c.value.tree);
      var parent := if leaf.Some? then Some(leaf.value.id) else None;
      history := HistoryUpTo(c.value.tree, None);
      Queue(k, AppendUpdate(parent, MakeUserNode(newId, parent, trimmed)));
      started := hook.Submit(k, trimmed, newId);
    }

    /** Send a question with no conversation open: a new one is seeded with it. */
    method HandleSubmitNew(k: ConvoId, question: string, newId: NodeId) returns (started: AbortController?)
      requires hook.Valid() && Find(conversations, k).None? && !IsRunning(SliceOf(k))
      modifies this`conversations, hook
      ensures hook.Valid()
      ensures started != null ==>
                k !in old(hook.controllers) && fresh(started) && hook.controllers == old(hook.controllers)[k := started]
      ensures started == null ==> hook.controllers == old(hook.controllers)
      ensures SliceOf(k) ==
              if Trim(question) == "" then old(SliceOf(k))
              else SubmitTurn(old(SliceOf(k)).(tree := Some(EMPTY_CONVERSATION)), question, newId)
      ensures forall j :: j != k ==> SliceOf(j) == old(SliceOf(j))
    {
      started := null;
      var trimmed := Trim(question);
      if trimmed == "" {
        return;
      }
      var seeded := AppendChildOf(EMPTY_CONVERSATION, None, MakeUserNode(newId, None, trimmed));
      conversations := [Entry(k, seeded.value, false)] + conversations;
      assert conversations[1..] == old(conversations);
      started := hook.Submit(k, trimmed, newId);
    }

    /** Edit: a new version of a question, answered afresh. */
    method HandleEditUserMessage(k: ConvoId, target: NodeId, question: string, newId: NodeId)
      returns (history: seq<Turn>, started: AbortController?)
      requires hook.Valid() && Walkable(k)
      modifies this`conversations, hook
      ensures hook.Valid()
      ensures started != null ==>
                k !in old(hook.controllers) && fresh(started) && hook.controllers == old(hook.controllers)[k := started]
      ensures started == null ==> hook.controllers == old(hook.controllers)
      ensures SliceOf(k) == EditTurn(old(SliceOf(k)), target, question, newId)
      ensures forall j :: j != k ==> SliceOf(j) == old(SliceOf(j))
      ensures started != null ==>
                old(SliceOf(k)).tree.Some? && history == History(old(SliceOf(k)).tree.value, Some(target))
    {
      hide Fork, History, Acyclic, NodeOk, SlotOk, Begin, Accepts, Trim;
      history, started := [], null;
      var busy := IsBusy(k);
      var c := Find(conversations, k);
      if busy || c.None? || target !in c.value.tree.nodes || !c.value.tree.nodes[target].role.User? {
        return;
      }
      var trimmed := Trim(question);
      if trimmed == "" {
        return;
      }
      var parent := c.value.tree.nodes[target].parent;
      history := HistoryUpTo(c.value.tree, Some(target));
      Queue(k, ForkUpdate(target, MakeUserNode(newId, parent, trimmed)));
      started := hook.Submit(k, trimmed, newId);
    }

    /** Retry: another answer to the question that `target` answers. */
    method HandleRetryAssistant(k: ConvoId, target: NodeId) returns (history: seq<Turn>, started: AbortController?)
      requires hook.Valid() && Walkable(k)
      modifies hook
      ensures hook.Valid()
      ensures started != null ==>
                k !in old(hook.controllers) && fresh(started) && hook.controllers == old(hook.controllers)[k := started]
      ensures started == null ==> hook.controllers == old(hook.controllers)
      ensures SliceOf(k) == RetryTurn(old(SliceOf(k)), target)
      ensures forall j :: j != k ==> SliceOf(j) == old(SliceOf(j))
      ensures started != null ==>
                old(SliceOf(k)).tree.Some? && history == History(old(SliceOf(k)).tree.value, Some(target))
    {
      history, started := [], null;
      var busy := IsBusy(k);
      var c := Find(conversations, k);
      if c.None? || busy {
        return;
      }
      var q := QuestionOf(c.value.tree, target);
      if q.None? {
        return;
      }
      history := HistoryUpTo(c.value.tree, Some(target));
      started := hook.Submit(k, c.value.tree.nodes[q.value].content, q.value);
    }

    method HandleSwitchBranch(k: ConvoId, current: NodeId, sibling: NodeId)
      modifies this`conversations
      ensures SliceOf(k) == SwitchTurn(old(SliceOf(k)), current, sibling)
      ensures forall j :: j != k ==> SliceOf(j) == old(SliceOf(j))
    {
      Queue(k, SwitchUpdate(current, sibling));
    }

    /** Open a conversation from the search overlay, surfacing the matched node if there is one. */
    method HandleSelectFromHistory(k: ConvoId, matched: Option<NodeId>)
      requires Walkable(k)
      modifies this`conversations
      ensures SliceOf(k) ==
              if matched.None? then old(SliceOf(k)) else SurfaceTurn(old(SliceOf(k)), matched.value)
      ensures forall j :: j != k ==> SliceOf(j) == old(SliceOf(j))
    {
      var c := Find(conversations, k);
      if matched.Some? && c.Some? {
        var repointed := SelectPathTo(c.value.tree, matched.value);
        Queue(k, PathUpdate(repointed));
      }
    }

    method HandleStop(k: ConvoId)
      requires hook.Valid()
      modifies if k in hook.controllers then {hook.controllers[k]} else {}
      ensures hook.Valid()
      ensures SliceOf(k) == old(SliceOf(k)).(hook := OnStop(old(SliceOf(k)).hook))
      ensures forall j :: j != k ==> SliceOf(j) == old(SliceOf(j))
    {
      hook.Stop(k);
    }

    /** Delete a conversation: drop it from the list and forget its stream. */
    method ConfirmDelete(k: ConvoId)
      requires hook.Valid()
      modifies this`conversations, hook, if k in hook.controllers then {hook.controllers[k]} else {}
      ensures hook.Valid()
      ensures SliceOf(k) == Deleted(old(SliceOf(k)))
      ensures hook.controllers == old(hook.controllers) - {k}
      ensures k in old(hook.controllers) ==> old(hook.controllers)[k].aborted
      ensures forall j :: j != k ==> SliceOf(j) == old(SliceOf(j))
    {
      ghost var cs := conversations;
      conversations := Without(conversations, k);
      forall j
        ensures Find(conversations, j) == if j == k then None else Find(cs, j)
      {
        FindWithout(cs, k, j);
      }
      hook.Reset(k);
    }
  }
}
