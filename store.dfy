/** The module-level `blacklist` dict `{"grouplist": [...], "userlist": [...]}`
    and the commands that change it. `is_number` is the parameter `isNumber`:
    its exact acceptance set belongs to Python's float() and unicodedata. */
module Store {
  import opened Decimal
  import opened IdLists
  import opened Gate

  datatype Mode = Add | Del
  datatype ListKind = UserList | GroupList

  /** What blacklist.json holds: nothing yet, or the lists last written. */
  datatype Document = Absent | Written(grouplist: seq<string>, userlist: seq<string>)

  /** The string `handle_blacklist` returns. */
  datatype Reply =
    | Usage
    | NotNumeric
    | Done(mode: Mode, kind: ListKind, count: nat, ids: seq<string>)
  {
    function Text(): string {
      match this
      case Usage => "用法: \n拉黑(解禁)用户(群) qq qq1 qq2 ..."
      case NotNumeric => "参数错误, id必须是数字.."
      case Done(mode, kind, count, ids) =>
        "已" + (if mode == Add then "拉黑" else "解禁") + " " + Str(count) + " 个"
        + (if kind == UserList then "用户" else "群聊") + ": " + Join(ids, ", ")
    }
  }

  function Join(parts: seq<string>, sep: string): (joined: string) {
    if parts == [] then ""
    else if |parts| == 1 then parts[0]
    else parts[0] + sep + Join(parts[1..], sep)
  }

  /** What every faithful is_number does: float() accepts a plain run of digits. */
  ghost predicate AcceptsDecimals(isNumber: string -> bool) {
    forall s :: IsDecimal(s) ==> isNumber(s)
  }

  /** The validation loop of `handle_blacklist`: stops at the first token that
      is not a number. */
  method AllNumeric(uids: seq<string>, isNumber: string -> bool) returns (ok: bool)
    ensures ok <==> forall u :: u in uids ==> isNumber(u)
    ensures AcceptsDecimals(isNumber) && (forall u :: u in uids ==> IsDecimal(u)) ==> ok
  {
    for i := 0 to |uids|
      invariant forall j :: 0 <= j < i ==> isNumber(uids[j])
    {
      if !isNumber(uids[i]) {
        return false;
      }
    }
    return true;
  }

  class Blacklist {
    var grouplist: seq<string>
    var userlist: seq<string>
    /** The content of blacklist.json, kept equal to the lists by every save. */
    ghost var saved: Document

    /** No blacklist.json yet: both lists start empty and nothing is written. */
    constructor Empty()
      ensures grouplist == [] && userlist == [] && saved == Absent
    {
      grouplist, userlist := [], [];
      saved := Absent;
    }

    /** The lists as read back from blacklist.json. */
    constructor Loaded(grouplist: seq<string>, userlist: seq<string>)
      ensures this.grouplist == grouplist && this.userlist == userlist
      ensures saved == Written(grouplist, userlist)
    {
      this.grouplist, this.userlist := grouplist, userlist;
      saved := Written(grouplist, userlist);
    }

    function List(kind: ListKind): (list: seq<string>)
      reads this
    {
      if kind == UserList then userlist else grouplist
    }

    /** `blacklist[type_] = value`. */
    method SetList(kind: ListKind, value: seq<string>)
      modifies this`grouplist, this`userlist
      ensures List(kind) == value
      ensures kind == UserList ==> grouplist == old(grouplist)
      ensures kind == GroupList ==> userlist == old(userlist)
    {
      if kind == UserList {
        userlist := value;
      } else {
        grouplist := value;
      }
    }

    /** `save_blacklist`: the whole dict is written out. */
    method Save()
      modifies this`saved
      ensures saved == Written(grouplist, userlist)
    {
      saved := Written(grouplist, userlist);
    }

    /** `handle_blacklist(arg, mode, type_)` on the already split tokens `uids`. */
    method HandleBlacklist(uids: seq<string>, mode: Mode, kind: ListKind, isNumber: string -> bool)
      returns (reply: Reply)
      modifies this
      // validation comes first and a rejected command changes nothing
      ensures uids == [] ==> reply == Usage
      ensures uids != [] && (exists u :: u in uids && !isNumber(u)) ==> reply == NotNumeric
      ensures reply.Done? <==> uids != [] && forall u :: u in uids ==> isNumber(u)
      ensures !reply.Done? ==>
                grouplist == old(grouplist) && userlist == old(userlist) && saved == old(saved)
      ensures AcceptsDecimals(isNumber) && uids != [] && (forall u :: u in uids ==> IsDecimal(u)) ==>
                reply.Done?
      // the reply counts the supplied tokens, duplicates and no-ops included
      ensures reply.Done? ==> reply == Done(mode, kind, |uids|, uids)
      // add: a duplicate-free union into the named list
      ensures reply.Done? && mode == Add ==>
                NoDup(List(kind)) && Elems(List(kind)) == Elems(old(List(kind))) + Elems(uids)
      // del: the old list with every supplied id filtered out, order kept
      ensures reply.Done? && mode == Del ==> List(kind) == Without(old(List(kind)), uids)
      // the other list is untouched and the file matches memory
      ensures reply.Done? && kind == UserList ==> grouplist == old(grouplist)
      ensures reply.Done? && kind == GroupList ==> userlist == old(userlist)
      ensures reply.Done? ==> saved == Written(grouplist, userlist)
    {
      if uids == [] {
        return Usage;
      }
      var numeric := AllNumeric(uids, isNumber);
      if !numeric {
        return NotNumeric;
      }
      if mode == Add {
        SetList(kind, List(kind) + uids);
        assert Elems(List(kind)) == Elems(old(List(kind))) + Elems(uids);
        SetList(kind, Distinct(List(kind)));
      } else {
        SetList(kind, Without(List(kind), uids));
      }
      Save();
      reply := Done(mode, kind, |uids|, uids);
    }

    /** `add_gid(gid)`: the `/静默` shortcut blocks the current group. */
    method AddGid(gid: string) returns (reply: string)
      modifies this
      ensures NoDup(grouplist) && Elems(grouplist) == Elems(old(grouplist)) + {gid}
      ensures userlist == old(userlist)
      ensures saved == Written(grouplist, userlist)
      ensures reply == "那我先睡觉了..."
    {
      grouplist := grouplist + [gid];
      grouplist := Distinct(grouplist);
      Save();
      reply := "那我先睡觉了...";
    }

    /** `del_gid(gid)`: the `/响应` shortcut unblocks the current group. */
    method DelGid(gid: string) returns (reply: string)
      modifies this
      ensures grouplist == Without(old(grouplist), [gid])
      ensures forall x :: x in grouplist <==> x in old(grouplist) && x != gid
      ensures userlist == old(userlist)
      ensures saved == Written(grouplist, userlist)
      ensures reply == "呜......醒来力..."
    {
      grouplist := Without(grouplist, [gid]);
      Save();
      reply := "呜......醒来力...";
    }
  }

  /** After an add to the user list, a non-superuser on it is denied by the
      gate, in any conversation, unless a blocked group denies first. */
  lemma AddedUserIsDenied(superusers: set<string>, grouplist: seq<string>, userlist: seq<string>,
                          uids: seq<string>, ev: MessageEvent)
    requires Str(ev.userId) in uids && Str(ev.userId) !in superusers
    ensures ProcessMessage(superusers, grouplist, Distinct(userlist + uids), ev).Deny?
    ensures !FromBlockedGroup(grouplist, ev) ==>
              ProcessMessage(superusers, grouplist, Distinct(userlist + uids), ev) == Deny(BlacklistedUser)
  {
    assert Str(ev.userId) in Elems(userlist + uids);
  }

  /** A token that passes `is_number` but is not the canonical text of an id
      is stored, yet blocks nobody: "0123" on the user list does not stop user 123. */
  lemma NonCanonicalTokenBlocksNobody()
    ensures "0123" in Distinct([] + ["0123"])
    ensures ProcessMessage({}, [], Distinct([] + ["0123"]), PrivateMessage(123)) == Allow
  {
    assert Str(123) == "123";
    assert Elems(Distinct([] + ["0123"])) == {"0123"};
  }

  /** After a delete from both lists, a sender who was named is let through. */
  lemma DeletedSenderIsAllowed(superusers: set<string>, grouplist: seq<string>, userlist: seq<string>,
                               gids: seq<string>, uids: seq<string>, ev: MessageEvent)
    requires Str(ev.userId) in uids
    requires ev.GroupMessage? ==> Str(ev.groupId) in gids
    ensures ProcessMessage(superusers, Without(grouplist, gids), Without(userlist, uids), ev) == Allow
  {
  }
}
