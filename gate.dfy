/** The two event preprocessors that run before any handler:
    `blacklist_processor` for message events and `blacklist_processor_poke`
    for poke notices. Raising IgnoredException is modelled as a Deny verdict. */
module Gate {
  import opened Decimal
  import opened IdLists

  datatype Option<T> = None | Some(value: T)

  /** The argument of the raised IgnoredException. */
  datatype Reason = BlacklistedGroup | BlacklistedUser

  datatype Verdict = Allow | Deny(reason: Reason)

  /** A OneBot v11 message event: a GroupMessageEvent or a private one. */
  datatype MessageEvent =
    | GroupMessage(userId: nat, groupId: nat)
    | PrivateMessage(userId: nat)

  /** A OneBot v11 PokeNotifyEvent; its group is absent for a private poke. */
  datatype PokeEvent = PokeNotify(userId: nat, groupId: Option<nat>)

  /** The shared decision: `uid` is the sender's key and `group` the key of
      the group when the event is a GroupMessageEvent. Superuser first, then
      the group list, then the user list; the precedence is stated in the
      contracts of ProcessMessage and ProcessPoke, its two callers. */
  function Decide(superusers: set<string>, grouplist: seq<string>, userlist: seq<string>,
                  uid: string, group: Option<string>): (v: Verdict)
  {
    if uid in superusers then Allow
    else if group.Some? && group.value in grouplist then Deny(BlacklistedGroup)
    else if uid in userlist then Deny(BlacklistedUser)
    else Allow
  }

  /** True when the event is a group message from a group on the list. */
  predicate FromBlockedGroup(grouplist: seq<string>, ev: MessageEvent) {
    ev.GroupMessage? && Str(ev.groupId) in grouplist
  }

  function ProcessMessage(superusers: set<string>, grouplist: seq<string>, userlist: seq<string>,
                          ev: MessageEvent): (v: Verdict)
    // a superuser always passes, whatever the lists hold
    ensures Str(ev.userId) in superusers ==> v == Allow
    // the group check comes first: a blocked user in a blocked group gets the group reason
    ensures v == Deny(BlacklistedGroup) <==>
              Str(ev.userId) !in superusers && FromBlockedGroup(grouplist, ev)
    ensures v == Deny(BlacklistedUser) <==>
              Str(ev.userId) !in superusers && !FromBlockedGroup(grouplist, ev) && Str(ev.userId) in userlist
    // there is no rule of its own for private conversations
    ensures ev.PrivateMessage? ==> (v == Allow <==> Str(ev.userId) in superusers || Str(ev.userId) !in userlist)
  {
    var group := if ev.GroupMessage? then Some(Str(ev.groupId)) else None;
    Decide(superusers, grouplist, userlist, Str(ev.userId), group)
  }

  /** A PokeNotifyEvent is never a GroupMessageEvent, so only the superuser and
      user-list checks decide. */
  function ProcessPoke(superusers: set<string>, grouplist: seq<string>, userlist: seq<string>,
                       ev: PokeEvent): (v: Verdict)
    ensures v != Deny(BlacklistedGroup)
    ensures v == Deny(BlacklistedUser) <==> Str(ev.userId) !in superusers && Str(ev.userId) in userlist
  {
    Decide(superusers, grouplist, userlist, Str(ev.userId), None)
  }

  /** What the poke preprocessor evidently means to do: a poke inside a group
      on the list is ignored like a message from that group. */
  function ProcessPokeByGroup(superusers: set<string>, grouplist: seq<string>, userlist: seq<string>,
                              ev: PokeEvent): (v: Verdict)
    ensures Str(ev.userId) in superusers ==> v == Allow
    ensures v == Deny(BlacklistedGroup) <==>
              Str(ev.userId) !in superusers && ev.groupId.Some? && Str(ev.groupId.value) in grouplist
    ensures ev.groupId.None? ==> v == ProcessPoke(superusers, grouplist, userlist, ev)
  {
    var group := if ev.groupId.Some? then Some(Str(ev.groupId.value)) else None;
    Decide(superusers, grouplist, userlist, Str(ev.userId), group)
  }

  /** A poke inside a group gets the same verdict as a message from the same
      sender in the same group. */
  lemma PokeByGroupMatchesMessage(superusers: set<string>, grouplist: seq<string>, userlist: seq<string>,
                                  userId: nat, groupId: nat)
    ensures ProcessPokeByGroup(superusers, grouplist, userlist, PokeNotify(userId, Some(groupId)))
         == ProcessMessage(superusers, grouplist, userlist, GroupMessage(userId, groupId))
  {
  }

  /** As written, a non-superuser poking inside a blocked group passes. */
  lemma PokeFromBlockedGroupPasses()
    ensures ProcessPoke({}, ["1"], [], PokeNotify(2, Some(1))) == Allow
    ensures ProcessPokeByGroup({}, ["1"], [], PokeNotify(2, Some(1))) == Deny(BlacklistedGroup)
  {
    assert Str(1) == "1";
    assert Str(2) == "2";
  }

  /** The group list plays no part in the poke decision. */
  lemma PokeIgnoresGroupList(superusers: set<string>, g1: seq<string>, g2: seq<string>,
                             userlist: seq<string>, ev: PokeEvent)
    ensures ProcessPoke(superusers, g1, userlist, ev) == ProcessPoke(superusers, g2, userlist, ev)
  {
  }

  /** The verdict depends on the lists only as sets, so the order `list(set(...))`
      leaves behind after an add does not matter. */
  lemma VerdictDependsOnlyOnElems(superusers: set<string>, g1: seq<string>, u1: seq<string>,
                                  g2: seq<string>, u2: seq<string>, ev: MessageEvent)
    requires Elems(g1) == Elems(g2) && Elems(u1) == Elems(u2)
    ensures ProcessMessage(superusers, g1, u1, ev) == ProcessMessage(superusers, g2, u2, ev)
  {
    var uid := Str(ev.userId);
    assert uid in u1 <==> uid in Elems(u1);
    assert uid in u2 <==> uid in Elems(u2);
    if ev.GroupMessage? {
      var gid := Str(ev.groupId);
      assert gid in g1 <==> gid in Elems(g1);
      assert gid in g2 <==> gid in Elems(g2);
    }
  }

  /** Listing the key of one user changes the verdict for no other user's
      private message: distinct ids have distinct keys. */
  lemma BlockingOneUserAffectsNoOther(superusers: set<string>, grouplist: seq<string>,
                                      userlist: seq<string>, blocked: nat, sender: nat)
    requires blocked != sender
    ensures ProcessMessage(superusers, grouplist, userlist + [Str(blocked)], PrivateMessage(sender))
         == ProcessMessage(superusers, grouplist, userlist, PrivateMessage(sender))
  {
    StrInjective(blocked, sender);
  }

  /** Blocking more ids never lets through an event that was denied. */
  lemma DenialIsMonotone(superusers: set<string>, g1: seq<string>, u1: seq<string>,
                         g2: seq<string>, u2: seq<string>, ev: MessageEvent)
    requires Elems(g1) <= Elems(g2) && Elems(u1) <= Elems(u2)
    requires ProcessMessage(superusers, g1, u1, ev).Deny?
    ensures ProcessMessage(superusers, g2, u2, ev).Deny?
  {
    var uid := Str(ev.userId);
    assert uid in u1 ==> uid in Elems(u1);
    if ev.GroupMessage? {
      var gid := Str(ev.groupId);
      assert gid in g1 ==> gid in Elems(g1);
    }
  }
}
