/**
 * Finding a message again: `searchConversations` of
 * services/dashboard/components/chats-history-overlay.tsx, and the branch navigator of
 * services/dashboard/components/message-thread.tsx.
 */
module Search {
  import opened Wrappers
  import opened Sequences
  import opened Text
  import opened Branches
  import opened BranchLaws

  /** A conversation as the list of chats shows it. */
  datatype Chat = Chat(title: string, tree: Conversation)

  datatype Origin = SaidByYou | SaidByWolf | InTitle

  /** One row of results; without a query there is nothing to quote and nothing to surface. */
  datatype Hit = Hit(chat: Chat, origin: Option<Origin>, matched: Option<NodeId>)

  /** How text is lower-cased. */
  datatype Folding = Folding(fold: string -> string)
  {
    function Lower(s: string): string
    {
      fold(s)
    }
  }

  ghost predicate Occurs(s: string, q: string, i: nat)
  {
    i <= |s| && q <= s[i..]
  }

  lemma OccursStep(s: string, q: string, i: nat)
    ensures s == "" ==> (Occurs(s, q, i) <==> i == 0 && q == "")
    ensures i == 0 ==> (Occurs(s, q, i) <==> q <= s)
    ensures s != "" && i > 0 ==> (Occurs(s, q, i) <==> Occurs(s[1..], q, i - 1))
  {
    assert s[0..] == s;
    if s != "" && 0 < i <= |s| {
      assert s[1..][i - 1..] == s[i..];
    }
  }

  /** `s.includes(q)`. */
  function Includes(s: string, q: string): (r: bool)
    ensures r <==> exists i: nat :: Occurs(s, q, i)
  {
    IncludesStep(s, q);
    q <= s || (s != "" && Includes(s[1..], q))
  }

  lemma IncludesStep(s: string, q: string)
    ensures (exists i: nat :: Occurs(s, q, i)) <==> q <= s || (s != "" && exists i: nat :: Occurs(s[1..], q, i))
  {
    if i: nat :| Occurs(s, q, i) {
      OccursStep(s, q, i);
    }
    OccursStep(s, q, 0);
    if s != "" {
      if i: nat :| Occurs(s[1..], q, i) {
        OccursStep(s, q, i + 1);
      }
    }
  }

  /** Searching finds `q` wherever it stands in the text, and nothing else. */
  lemma IncludesExactly(s: string, q: string)
    ensures Includes(s, q) <==> exists before, after :: s == before + q + after
  {
    if i: nat :| Occurs(s, q, i) {
      assert s == s[..i] + q + s[i + |q|..];
    }
    if before, after :| s == before + q + after {
      assert Occurs(s, q, |before|);
    }
  }

  /** The text holds the query, whatever the case. */
  predicate Mentions(text: string, q: string, f: Folding)
    ensures Mentions(text, q, f) <==> exists i: nat :: Occurs(f.Lower(text), q, i)
  {
    Includes(f.Lower(text), q)
  }

  ghost predicate Silent(c: Conversation, ids: seq<NodeId>, q: string, f: Folding)
  {
    forall id :: id in ids && id in c.nodes ==> !Mentions(c.nodes[id].content, q, f)
  }

  /** What a non-empty query finds in one chat: its earliest matching node, or else its title. */
  ghost predicate Explains(chat: Chat, q: string, f: Folding, hit: Option<Hit>)
  {
    var c := chat.tree;
    match hit
    case None => !Mentions(chat.title, q, f) && Silent(c, c.order, q, f)
    case Some(h) =>
      h.chat == chat &&
      match h.matched
      case Some(id) =>
        && id in c.order && id in c.nodes && Mentions(c.nodes[id].content, q, f)
        && Silent(c, c.order[..Pos(c.order, id)], q, f)
        && h.origin == Some(if c.nodes[id].role.User? then SaidByYou else SaidByWolf)
      case None =>
        h.origin == Some(InTitle) && Mentions(chat.title, q, f) && Silent(c, c.order, q, f)
  }

  /** The hits are one explanation per chat, chats without one left out, in the order of the chats. */
  ghost predicate Lists(chats: seq<Chat>, q: string, f: Folding, hits: seq<Hit>)
  {
    if chats == [] then hits == []
    else
      var init, last := chats[..|chats| - 1], chats[|chats| - 1];
      || (Explains(last, q, f, None) && Lists(init, q, f, hits))
      || (|hits| > 0 && Explains(last, q, f, Some(hits[|hits| - 1])) && Lists(init, q, f, hits[..|hits| - 1]))
  }

  ghost predicate AllKeyed(chats: seq<Chat>)
  {
    forall k :: 0 <= k < |chats| ==> Keyed(chats[k].tree)
  }

  method SearchConversations(raw: string, chats: seq<Chat>, f: Folding) returns (hits: seq<Hit>)
    requires AllKeyed(chats)
    ensures f.Lower(Trim(raw)) == "" ==>
              |hits| == |chats| && forall k :: 0 <= k < |chats| ==> hits[k] == Hit(chats[k], None, None)
    ensures f.Lower(Trim(raw)) != "" ==> Lists(chats, f.Lower(Trim(raw)), f, hits)
  {
    var q := f.Lower(Trim(raw));
    hits := [];
    if q == "" {
      for k := 0 to |chats|
        invariant |hits| == k && forall j :: 0 <= j < k ==> hits[j] == Hit(chats[j], None, None)
      {
        hits := hits + [Hit(chats[k], None, None)];
      }
      return;
    }
    for k := 0 to |chats|
      invariant Lists(chats[..k], q, f, hits)
    {
      var chat := chats[k];
      var hit := SearchChat(chat, q, f);
      assert chats[..k + 1][..k] == chats[..k];
      if hit.Some? {
        assert (hits + [hit.value])[..|hits|] == hits;
        hits := hits + [hit.value];
      }
    }
    assert chats[..|chats|] == chats;
  }

  /** The body of the outer loop: scan one chat, stopping at the first matching node. */
  method SearchChat(chat: Chat, q: string, f: Folding) returns (hit: Option<Hit>)
    requires Keyed(chat.tree)
    ensures Explains(chat, q, f, hit)
  {
    var c := chat.tree;
    var titleHit := Mentions(chat.title, q, f);
    for i := 0 to |c.order|
      invariant Silent(c, c.order[..i], q, f)
    {
      var id := c.order[i];
      if Mentions(c.nodes[id].content, q, f) {
        PosUnique(c.order, i);
        return Some(Hit(chat, Some(if c.nodes[id].role.User? then SaidByYou else SaidByWolf), Some(id)));
      }
    }
    assert c.order[..|c.order|] == c.order;
    hit := if titleHit then Some(Hit(chat, Some(InTitle), None)) else None;
  }

  /** No match is missed: a chat is listed exactly when its title or the text of any of its nodes holds the query. */
  lemma {:induction false} SearchComplete(chats: seq<Chat>, q: string, f: Folding, hits: seq<Hit>, chat: Chat)
    requires Lists(chats, q, f, hits) && AllKeyed(chats)
    ensures (exists h :: h in hits && h.chat == chat) <==>
            && chat in chats
            && (|| (exists i: nat :: Occurs(f.Lower(chat.title), q, i))
                || exists id, i: nat :: id in chat.tree.nodes && Occurs(f.Lower(chat.tree.nodes[id].content), q, i))
  {
    if chats != [] {
      var init, last := chats[..|chats| - 1], chats[|chats| - 1];
      assert chats == init + [last] && Keyed(last.tree);
      if Explains(last, q, f, None) && Lists(init, q, f, hits) {
        SearchComplete(init, q, f, hits, chat);
      } else {
        var rest, h := hits[..|hits| - 1], hits[|hits| - 1];
        assert hits == rest + [h];
        SearchComplete(init, q, f, rest, chat);
        if chat == last {
          assert h in hits && h.chat == chat;
        }
      }
    }
  }

  /** `places` says which chat each hit is of, in the order of the chats. */
  ghost predicate InOrder(chats: seq<Chat>, hits: seq<Hit>, places: seq<nat>)
  {
    && |places| == |hits|
    && (forall i :: 0 <= i < |hits| ==> places[i] < |chats| && hits[i].chat == chats[places[i]])
    && forall i, j :: 0 <= i < j < |hits| ==> places[i] < places[j]
  }

  /** At most one hit per chat, in the order of the chats. */
  lemma {:induction false} SearchKeepsOrder(chats: seq<Chat>, q: string, f: Folding, hits: seq<Hit>)
    requires Lists(chats, q, f, hits)
    ensures exists places: seq<nat> :: InOrder(chats, hits, places)
  {
    if chats == [] {
      assert InOrder(chats, hits, []);
    } else {
      var init, last := chats[..|chats| - 1], chats[|chats| - 1];
      if Explains(last, q, f, None) && Lists(init, q, f, hits) {
        SearchKeepsOrder(init, q, f, hits);
        var places: seq<nat> :| InOrder(init, hits, places);
        assert InOrder(chats, hits, places);
      } else {
        SearchKeepsOrder(init, q, f, hits[..|hits| - 1]);
        var places: seq<nat> :| InOrder(init, hits[..|hits| - 1], places);
        var here: nat := |init|;
        assert InOrder(chats, hits, places + [here]);
      }
    }
  }

  /** Every hit belongs to a chat that was searched and is explained by it. */
  lemma {:induction false} SearchSound(chats: seq<Chat>, q: string, f: Folding, hits: seq<Hit>, h: Hit)
    requires Lists(chats, q, f, hits) && h in hits
    ensures h.chat in chats && Explains(h.chat, q, f, Some(h))
  {
    var init, last := chats[..|chats| - 1], chats[|chats| - 1];
    if Explains(last, q, f, None) && Lists(init, q, f, hits) {
      SearchSound(init, q, f, hits, h);
    } else if h in hits[..|hits| - 1] {
      SearchSound(init, q, f, hits[..|hits| - 1], h);
    }
  }

  /**
   * Clicking a row shows the message it quotes: whatever branch it was buried in, it is on the
   * active path after surfacing, right below its own ancestors, and nothing is added or removed.
   */
  lemma HitBecomesVisible(chats: seq<Chat>, q: string, f: Folding, hits: seq<Hit>, h: Hit)
    requires Lists(chats, q, f, hits) && h in hits && h.matched.Some?
    requires WellFormed(h.chat.tree)
    ensures var c, id := h.chat.tree, h.matched.value;
            && id in c.nodes && (exists i: nat :: Occurs(f.Lower(c.nodes[id].content), q, i))
            && h.origin == Some(if c.nodes[id].role.User? then SaidByYou else SaidByWolf)
            && (forall x, i: nat :: x in c.order[..Pos(c.order, id)] && x in c.nodes ==>
                  !Occurs(f.Lower(c.nodes[x].content), q, i))
            && WellFormed(PathSelected(c, id))
            && id in ActiveIds(PathSelected(c, id))
            && AncestorChain(c, id).Some? && AncestorChain(c, id).value <= ActiveIds(PathSelected(c, id))
            && PathSelected(c, id).order == c.order && PathSelected(c, id).nodes.Keys == c.nodes.Keys
  {
    SearchSound(chats, q, f, hits, h);
    SurfaceActivePath(h.chat.tree, h.matched.value);
  }

  // ---------- The branch navigator ----------

  datatype Navigator = Navigator(siblings: seq<Node>, index: int)

  /** `navigatorFor`: the alternatives at one branch point, and which of them `id` is. */
  method NavigatorFor(c: Conversation, id: NodeId) returns (nav: Option<Navigator>)
    requires WellFormed(c)
    ensures nav.Some? <==> id in c.nodes && |SiblingList(c, c.nodes[id].parent)| > 1
    ensures nav.Some? ==>
              var list := SiblingList(c, c.nodes[id].parent);
              && Reads(c, list, nav.value.siblings)
              && 0 <= nav.value.index < |list| && list[nav.value.index] == id
  {
    var siblings := SiblingsOfNode(c, id);
    if id in c.nodes {
      ghost var list := SiblingList(c, c.nodes[id].parent);
      assert NodeOk(c, id) && SlotOk(c, c.nodes[id].parent);
      StoredReads(c, list);
    }
    if |siblings| <= 1 {
      return None;
    }
    var index := 0;
    while index < |siblings| && siblings[index].id != id
      invariant 0 <= index <= |siblings|
      invariant forall j :: 0 <= j < index ==> siblings[j].id != id
    {
      index := index + 1;
    }
    ghost var at := Pos(SiblingList(c, c.nodes[id].parent), id);
    assert siblings[at].id == id;
    nav := Some(Navigator(siblings, index));
  }

  lemma {:induction false} StoredReads(c: Conversation, ids: seq<NodeId>)
    requires forall id :: id in ids ==> id in c.nodes
    ensures Reads(c, ids, StoredOf(c, ids))
  {
    if ids != [] {
      StoredReads(c, ids[..|ids| - 1]);
    }
  }

  /**
   * From a visible node the navigator reaches every alternative it lists: switching shows it at
   * the same depth, under the same context, and switching back restores the conversation.
   */
  lemma NavigatorReaches(c: Conversation, id: NodeId, k: nat)
    requires WellFormed(c) && id in ActiveIds(c)
    requires k < |SiblingList(c, c.nodes[id].parent)|
    ensures var other := SiblingList(c, c.nodes[id].parent)[k];
            && SwitchToSibling(c, id, other).Ok?
            && var d := SwitchToSibling(c, id, other).value;
               && WellFormed(d)
               && Before(ActiveIds(d), other) == Before(ActiveIds(c), id)
               && other in ActiveIds(d)
               && SwitchToSibling(d, other, id) == Ok(c)
  {
    var parent := c.nodes[id].parent;
    var other := SiblingList(c, parent)[k];
    assert SlotOk(c, parent) by { assert NodeOk(c, id); }
    SwitchKeepsWellFormed(c, id, other);
    SwitchLands(c, id, other);
    SelectedAbove(c, id);
    SwitchBack(c, id, other);
  }

  /** A visible node is the one its parent slot selects. */
  lemma SelectedAbove(c: Conversation, id: NodeId)
    requires WellFormed(c) && id in ActiveIds(c)
    ensures SelectedUnder(c, c.nodes[id].parent) == Some(id)
  {
    var ids := ActiveIds(c);
    ActivePathShape(c);
    PathLinks(c, c.selectedRoot);
    assert SlotOk(c, None);
    var k := Pos(ids, id);
    if k > 0 {
      assert c.nodes[ids[k - 1]].selected == Some(ids[k - 1 + 1]);
      assert c.nodes[ids[k - 1 + 1]].parent == Some(ids[k - 1]);
    }
  }
}
