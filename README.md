# nonebot-plugin-blacklist, block-list gate (flat schema)

A Dafny model of the block-list plugin for a NoneBot2 / OneBot v11 bot.
The plugin holds one dict `{"grouplist": [...], "userlist": [...]}` of id
strings: whatever tokens passed `is_number` when they were added. Before any handler runs, two event preprocessors decide
whether a message or a poke notice is let through. Superuser-only commands
add ids to either list or delete them, and every change is written back to
`data/blacklist/blacklist.json`.

- `decimal.dfy` (module `Decimal`): `str()` of a non-negative integer id
  (`Str`), and its inverse `Value`.
- `idlists.dfy` (module `IdLists`): the two list operations. `Distinct` is
  `list(set(xs))` and `Without` is `[x for x in xs if x not in ids]`.
- `gate.dfy` (module `Gate`): `blacklist_processor` and
  `blacklist_processor_poke`. Raising `IgnoredException` is modelled as the
  verdict `Deny(reason)`. Returning normally is `Allow`.
- `store.dfy` (module `Store`): the class `Blacklist`, with the two lists as
  `seq<string>` fields. It also holds a ghost `saved` document standing for
  the JSON file. Its methods are `handle_blacklist`, `add_gid` and `del_gid`.
  The validation loop is the separate method `AllNumeric`.

`is_number` is the parameter `isNumber: string -> bool` and is left
uninterpreted. The superuser set from the driver configuration is the
parameter `superusers`. The command text is taken already split into the
tokens `uids`.

The gate looks an event's ids up as `str(user_id)` and `str(group_id)`. The
lists store the raw tokens, so a token such as `"0123"`, `"1e5"` or `"１２３"` is
accepted and reported as blocked but never matches any event
(`Store.NonCanonicalTokenBlocksNobody`). Only the canonical text `Str(n)` of an
id blocks that id, and it blocks no other (`Decimal.StrInjective`).

## Model

| member | source | states |
|---|---|---|
| `Decimal.Str` | nonebot_plugin_blacklist/__init__.py:57 | `str(user_id)` is a non-empty run of ASCII digits with no leading zero (except for 0) |
| `Decimal.ValueOfStr` | nonebot_plugin_blacklist/__init__.py:71 | reading the digits of `str(n)` back gives `n` |
| `Decimal.StrInjective` | nonebot_plugin_blacklist/__init__.py:74 | two ids have the same canonical text exactly when they are equal, so listing one id's canonical text affects no other id |
| `IdLists.Distinct` | nonebot_plugin_blacklist/__init__.py:96 | `list(set(xs))` has no duplicates, holds exactly the elements of `xs`, and is no longer than `xs` |
| `IdLists.Without` | nonebot_plugin_blacklist/__init__.py:99 | the filtered list holds `x` exactly when `xs` does and `x` was not supplied; every kept id keeps its multiplicity, every supplied id has none left, and the result is a subsequence of `xs` (survivors keep their order) |
| `IdLists.AddPresent` | nonebot_plugin_blacklist/__init__.py:94-96 | adding ids already on a duplicate-free list changes neither its elements nor its length |
| `IdLists.AddIdempotent` | nonebot_plugin_blacklist/__init__.py:94-96 | applying the same add twice gives the same set and the same length as applying it once |
| `IdLists.WithoutIdempotent` | nonebot_plugin_blacklist/__init__.py:99 | deleting the same ids twice gives the same list as deleting them once |
| `IdLists.WithoutAbsent` | nonebot_plugin_blacklist/__init__.py:99 | deleting ids that are not on the list leaves the list exactly as it was |
| `IdLists.WithoutKeepsNoDup` | nonebot_plugin_blacklist/__init__.py:99 | a delete never introduces duplicates into a duplicate-free list |
| `Gate.ProcessMessage` | nonebot_plugin_blacklist/__init__.py:69-79 | a superuser always passes; otherwise a group message from a listed group is denied with the group reason even if the sender is listed too; otherwise a listed sender is denied with the user reason; a private message is denied only for a listed sender |
| `Gate.ProcessPoke` | nonebot_plugin_blacklist/__init__.py:55-65 | a poke is never denied with the group reason; it is denied with the user reason exactly when the sender is listed and is not a superuser |
| `Gate.PokeIgnoresGroupList` | nonebot_plugin_blacklist/__init__.py:60 | the poke verdict is the same whatever the group list holds |
| `Gate.VerdictDependsOnlyOnElems` | nonebot_plugin_blacklist/__init__.py:74-79 | the message verdict depends on the two lists only as sets, so the order left by `list(set(...))` does not matter |
| `Gate.BlockingOneUserAffectsNoOther` | nonebot_plugin_blacklist/__init__.py:77-79 | adding the canonical text of one user to the user list leaves the verdict on every other user's private message unchanged |
| `Gate.DenialIsMonotone` | nonebot_plugin_blacklist/__init__.py:74-79 | growing either list never lets through a message that was denied |
| `Gate.ProcessPokeByGroup` | nonebot_plugin_blacklist/__init__.py:60-62 | corrected poke check: a superuser passes; a poke is denied with the group reason exactly when it comes from a listed group and the sender is not a superuser; without a group it agrees with the check as written |
| `Gate.PokeByGroupMatchesMessage` | nonebot_plugin_blacklist/__init__.py:74-76 | under the corrected check, a poke in a group gets the same verdict as a message from the same sender in that group |
| `Gate.PokeFromBlockedGroupPasses` | nonebot_plugin_blacklist/__init__.py:60 | as written, user 2 poking in listed group 1 is allowed; the corrected check denies it |
| `Store.AllNumeric` | nonebot_plugin_blacklist/__init__.py:91-93 | the result is true exactly when every token satisfies `is_number`; all-digit tokens always pass when `is_number` accepts decimals |
| `Store.Blacklist.Empty` | nonebot_plugin_blacklist/__init__.py:26-30 | with no file, both lists start empty and nothing has been written |
| `Store.Blacklist.Loaded` | nonebot_plugin_blacklist/__init__.py:26-28 | with a file, the lists are its content, which matches the saved document |
| `Store.Blacklist.Save` | nonebot_plugin_blacklist/__init__.py:34-35 | the saved document equals both lists after the call |
| `Store.Blacklist.HandleBlacklist` | nonebot_plugin_blacklist/__init__.py:83-103 | the command is applied exactly when there is at least one token and every token satisfies `is_number`; no tokens gives the usage reply, and a non-numeric token gives the numeric-error reply; in both of those cases the lists and the file stay as they were. Add leaves the named list duplicate-free and equal as a set to old ∪ supplied. Delete leaves exactly `Without(old, uids)`. The other list is unchanged, the file matches memory, and the reply counts `len(uids)` supplied tokens, duplicates and no-ops included |
| `Store.Blacklist.AddGid` | nonebot_plugin_blacklist/__init__.py:160-164 | the group list ends duplicate-free and equal as a set to old ∪ {gid}; the user list is unchanged; it is saved; the reply is the fixed sleep text |
| `Store.Blacklist.DelGid` | nonebot_plugin_blacklist/__init__.py:165-168 | every occurrence of gid is dropped, the rest keep their order, the user list is unchanged, it is saved, and the reply is the fixed wake text |
| `Store.AddedUserIsDenied` | nonebot_plugin_blacklist/__init__.py:77-79 | after a user-list add naming the sender, a non-superuser sender is denied, with the user reason unless a listed group denies first |
| `Store.NonCanonicalTokenBlocksNobody` | nonebot_plugin_blacklist/__init__.py:95 | the token `"0123"` is stored on the user list, yet a private message from user 123 is still allowed |
| `Store.DeletedSenderIsAllowed` | nonebot_plugin_blacklist/__init__.py:99 | after deleting the sender from the user list, and the group from the group list for a group message, the message passes |

## Findings

| source | as written | input that shows it | evidently intended | confidence | as-written member | corrected member |
|---|---|---|---|---|---|---|
| nonebot_plugin_blacklist/__init__.py:60 | the poke preprocessor tests `isinstance(event, GroupMessageEvent)`, which is never true of a `PokeNotifyEvent`, so its group branch is dead | user 2 (not a superuser, not listed) pokes in group 1, and group 1 is on the group list: the poke is let through | a poke inside a listed group is ignored like a message from that group | medium, not executed | `Gate.PokeFromBlockedGroupPasses` (about `Gate.ProcessPoke`) | `Gate.ProcessPokeByGroup` |

`Gate.ProcessPoke` still models the code as written, and its contract states
that the group branch never fires. The corrected `Gate.ProcessPokeByGroup` is
proved to agree with the message check.

## Left out

- Reading and writing `blacklist.json` and creating its directory (lines 23-35) are file I/O. Only their effect is kept: the ghost field `saved` holds what the last save wrote.
- The JSON content is not checked when it is loaded. A file that lacks a key would make the source raise `KeyError`, and that is not modelled. A loaded list may hold duplicates, so the class has no duplicate-free invariant. Only an add makes a list duplicate-free.
- `is_number`'s exact acceptance set is not modelled. It comes from Python's `float()` parsing and the `unicodedata.numeric` tables, so it is the parameter `isNumber`. The only assumption made about it is `AcceptsDecimals`: plain runs of digits are numbers.
- Splitting the command text into tokens (`extract_plain_text().strip().split()`, line 88) is not modelled. The model takes the token sequence instead.
- The NoneBot wiring is not modelled. This covers the `on_command` registrations, the `SUPERUSER` permission, async handlers, `finish` and `logger.debug` (lines 108-141, 172-186). `Reply.Text` renders the reply strings but says nothing further about them.
- The two listing commands (lines 144-156) only format a reply and are not modelled.
- The element order after `list(set(...))` is unspecified in Python. `Distinct` picks one order, and no contract depends on it.
- Only the event types the two preprocessors accept are modelled. Events of other types never reach them.
- Tokens that pass `is_number` but are not the canonical text of an id are stored as they are and never match an event. The model reproduces this and does not correct it.
- Ids are non-negative integers (QQ numbers). The text of a negative id is not modelled.
