/** The `cgpt session` sub-commands of the chat plugin: `ls`, `new`, `reset`,
    `switch` and `rename`. Each command works on the session manager and
    ends in one reply; the reply is an outcome value here, and a Go panic
    (a nil dereference or a slice with a negative start) is an outcome too. */
module SessionCommands {
  import opened ChatSession

  // ---------------------------------------------------------------------
  // ls

  datatype ListReply =
    /** Paging a group without sessions slices from -5. */
    | ListPanic
    /** "当前群没有任何会话…" */
    | NoSessions
    /** "当前群共有%d个会话，第%d/%d页为：…" with the briefs of the items. */
    | Listing(shown: nat, page: int, pageCount: int, items: seq<Session>)
    /** The detail view of one session. */
    | Detail(session: Session)
    /** "会话%s不存在" */
    | NotFound(key: string)

  /** `ls [-s key] [-p page]` as written: the page is computed before the
      emptiness check, so an empty group panics and the check never fires;
      the count shown is the number of items on the page. */
  function ListCommand(mgr: SessionManager, groupId: int, key: string, page: int): (r: ListReply)
    reads mgr, mgr.sessionHistory
    ensures r.ListPanic? <==> forall s :: s in mgr.sessionHistory ==> s.groupId != groupId
    ensures !r.NoSessions?
    ensures r.Listing? ==>
      && key == ""
      && 1 <= r.shown <= PageSize && r.shown == |r.items|
      && 1 <= r.page <= r.pageCount
      && r.pageCount == (|mgr.ListGroupHistorySessions(groupId)| + PageSize - 1) / PageSize
      && forall i :: 0 <= i < |r.items| ==> r.items[i].groupId == groupId
    ensures key == "" && !r.ListPanic? ==> r.Listing?
    ensures key != "" && !r.ListPanic? ==> r.Detail? || r.NotFound?
    ensures r.Detail? ==>
      r.session in mgr.sessionHistory && r.session.groupId == groupId
      && (r.session.sessionId == key || r.session.sessionName == key)
    ensures r.NotFound? ==> r.key == key && forall s :: s in mgr.sessionHistory ==>
      !(s.groupId == groupId && (s.sessionId == key || s.sessionName == key))
  {
    ListReplyOf(mgr.ListGroupHistorySessionsByPage(groupId, page), key, mgr.GetGroupSessionByIdOrName(groupId, key))
  }

  /** The branches of `ls` once the page and the lookup of the key are known. */
  function ListReplyOf(p: PageResult<Session>, key: string, found: Session?): ListReply
  {
    if p.SlicePanic? then ListPanic
    else if |p.items| == 0 then NoSessions
    else if key == "" then Listing(|p.items|, p.page, p.pageCount, p.items)
    else if found == null then NotFound(key)
    else Detail(found)
  }

  /** With more than one page of sessions the listing says the group has
      five sessions, whatever their number. */
  lemma ListCountIsPageLength(mgr: SessionManager, groupId: int)
    requires |mgr.ListGroupHistorySessions(groupId)| > PageSize
    ensures var r := ListCommand(mgr, groupId, "", 1);
      r.Listing? && r.shown == PageSize < |mgr.ListGroupHistorySessions(groupId)|
  {
    var all := mgr.ListGroupHistorySessions(groupId);
    assert all[0] in all;
    var r := Paginate(all, 1);
    assert r.pageCount >= 2;
  }

  /** `ls` with the emptiness check first and the group's total count: the
      empty group gets its reply and nothing panics. */
  function ListCommandChecked(mgr: SessionManager, groupId: int, key: string, page: int): (r: ListReply)
    reads mgr, mgr.sessionHistory
    ensures !r.ListPanic?
    ensures r.NoSessions? <==> forall s :: s in mgr.sessionHistory ==> s.groupId != groupId
    ensures r.Listing? ==>
      && key == ""
      && r.shown == |mgr.ListGroupHistorySessions(groupId)|
      && 1 <= |r.items| <= PageSize && 1 <= r.page <= r.pageCount
      && forall i :: 0 <= i < |r.items| ==> r.items[i].groupId == groupId
    ensures key != "" && !r.NoSessions? ==> r.Detail? || r.NotFound?
    ensures r.Detail? ==>
      r.session in mgr.sessionHistory && r.session.groupId == groupId
      && (r.session.sessionId == key || r.session.sessionName == key)
    ensures r.NotFound? ==> r.key == key && forall s :: s in mgr.sessionHistory ==>
      !(s.groupId == groupId && (s.sessionId == key || s.sessionName == key))
  {
    var all := mgr.ListGroupHistorySessions(groupId);
    var p := mgr.ListGroupHistorySessionsByPage(groupId, page);
    if |all| == 0 || p.SlicePanic? then
      assert forall s :: s in mgr.sessionHistory && s.groupId == groupId ==> s in all;
      NoSessions
    else if key == "" then Listing(|all|, p.page, p.pageCount, p.items)
    else
      var s := mgr.GetGroupSessionByIdOrName(groupId, key);
      if s == null then NotFound(key) else Detail(s)
  }

  // ---------------------------------------------------------------------
  // new

  /** "已创建新会话%s" followed by the name, or by a hint when it is "". */
  datatype NewReply = Created(sessionId: string, name: string)

  /** `new [prompt] [-n name]`: a new current session for the group, named
      only when a name is given, without looking for another session that
      already carries the name. */
  method NewCommand(mgr: SessionManager, groupId: int, prompt: string, name: string, now: int)
    returns (r: NewReply, s: Session)
    requires mgr.Valid()
    modifies mgr
    ensures mgr.Valid() && fresh(s)
    ensures s.sessionId == GroupSessionId(groupId, now) && s.groupId == groupId
    ensures s.prompt == EffectivePrompt(prompt) && s.sessionName == name && s.history == []
    ensures s.startTime == now && s.userId == 0
    ensures mgr.groupSessions == old(mgr.groupSessions)[groupId := s.sessionId]
    ensures mgr.sessionHistory == old(mgr.sessionHistory) + [s]
    ensures r == Created(s.sessionId, name)
  {
    s := mgr.CreateGroupSession(groupId, prompt, now);
    label Created:
    if name != "" {
      s.sessionName := name;
    }
    mgr.HistoryChanged@Created();
    r := Created(s.sessionId, name);
  }

  // ---------------------------------------------------------------------
  // reset

  datatype ResetReply =
    /** "已重置当前会话，旧会话ID为：%s…" */
    | ResetDone(oldSessionId: string)
    /** The group has no current session: `oldSession.SessionId` on nil. */
    | ResetNilDereference

  /** `reset`: the reset itself, then the id of the session that was current
      before it; without a current session the reset does nothing and the
      reply dereferences nil. */
  method ResetCommand(mgr: SessionManager, groupId: int, now: int) returns (r: ResetReply)
    requires mgr.Valid()
    modifies mgr
    ensures mgr.Valid()
    ensures var cur := old(mgr.GetGroupCurrentSession(groupId));
      if cur == null then
        && r == ResetNilDereference
        && mgr.groupSessions == old(mgr.groupSessions) && mgr.sessionHistory == old(mgr.sessionHistory)
      else
        && r == ResetDone(cur.sessionId)
        && |mgr.sessionHistory| == |old(mgr.sessionHistory)| + 1
        && mgr.sessionHistory[..|old(mgr.sessionHistory)|] == old(mgr.sessionHistory)
        && var s := mgr.sessionHistory[|old(mgr.sessionHistory)|];
           && fresh(s) && s.groupId == groupId && s.prompt == EffectivePrompt(cur.prompt)
           && s.sessionId == GroupSessionId(groupId, now) && s.sessionName == "" && s.history == []
           && s.startTime == now && s.userId == 0
           && mgr.groupSessions == old(mgr.groupSessions)[groupId := s.sessionId]
  {
    var oldSession := mgr.GetGroupCurrentSession(groupId);
    mgr.ResetGroupSession(groupId, now);
    if oldSession == null {
      r := ResetNilDereference;
    } else {
      r := ResetDone(oldSession.sessionId);
    }
  }

  // ---------------------------------------------------------------------
  // switch

  /** "已切换会话到%s" */
  datatype SwitchReply = Switched(key: string)

  /** `switch key`: repoints the group when one of its sessions has that id
      or name, and reports success either way. */
  method SwitchCommand(mgr: SessionManager, groupId: int, key: string) returns (r: SwitchReply)
    requires mgr.Valid()
    modifies mgr
    ensures mgr.Valid()
    ensures var m := old(mgr.GetGroupSessionByIdOrName(groupId, key));
      mgr.groupSessions == if m == null then old(mgr.groupSessions) else old(mgr.groupSessions)[groupId := m.sessionId]
    ensures mgr.sessionHistory == old(mgr.sessionHistory)
    ensures r == Switched(key)
  {
    mgr.SwitchGroupSessionByIdOrName(groupId, key);
    r := Switched(key);
  }

  // ---------------------------------------------------------------------
  // rename

  datatype RenameReply =
    /** "会话名称已被使用，该会话ID为%s" */
    | NameTaken(holderId: string)
    /** "已重命名当前会话为%s…" */
    | RenamedCurrent(newName: string)
    /** "已重命名会话%s为%s…", whether or not a session has that id. */
    | Renamed(target: string, newName: string)
    /** No `-s` and no current session: `session.SessionName` on nil. */
    | RenameNilDereference

  /** The session `rename` changes, or null when it changes none. */
  function RenameTarget(mgr: SessionManager, groupId: int, target: string, newName: string): (t: Session?)
    reads mgr, mgr.sessionHistory
    ensures t != null ==> t in mgr.sessionHistory
    ensures t != null ==> mgr.GetGroupSessionByIdOrName(groupId, newName) == null
  {
    if mgr.GetGroupSessionByIdOrName(groupId, newName) != null then null
    else if target == "" then mgr.GetGroupCurrentSession(groupId)
    else mgr.GetSessionById(target)
  }

  /** `rename newName [-s id]`: refused without a change when a session of
      the group already has the new name as its id or name; otherwise the
      current session, or with `-s` the first session of any group with that
      id, takes the name. */
  method RenameCommand(mgr: SessionManager, groupId: int, target: string, newName: string)
    returns (r: RenameReply)
    requires mgr.Valid()
    modifies mgr.sessionHistory
    ensures mgr.Valid()
    ensures var holder := old(mgr.GetGroupSessionByIdOrName(groupId, newName));
      r == if holder != null then NameTaken(holder.sessionId)
           else if target != "" then Renamed(target, newName)
           else if old(mgr.GetGroupCurrentSession(groupId)) == null then RenameNilDereference
           else RenamedCurrent(newName)
    ensures var t := old(RenameTarget(mgr, groupId, target, newName));
      && (t != null ==> t.sessionName == newName)
      && forall s :: s in mgr.sessionHistory && s != t ==> s.sessionName == old(s.sessionName)
    ensures forall s :: s in mgr.sessionHistory ==>
      && s.sessionId == old(s.sessionId) && s.groupId == old(s.groupId) && s.prompt == old(s.prompt)
      && s.history == old(s.history) && s.startTime == old(s.startTime) && s.userId == old(s.userId)
    ensures r.RenamedCurrent? ==>
      mgr.GetGroupSessionByIdOrName(groupId, newName) == old(mgr.GetGroupCurrentSession(groupId))
  {
    var holder := mgr.GetGroupSessionByIdOrName(groupId, newName);
    if holder != null {
      r := NameTaken(holder.sessionId);
      return;
    }
    if target == "" {
      var session := mgr.GetGroupCurrentSession(groupId);
      if session == null {
        r := RenameNilDereference;
      } else {
        label Before:
        session.sessionName := newName;
        mgr.HistoryChanged@Before();
        assert Matches(session, ByGroupIdOrName(groupId, newName));
        r := RenamedCurrent(newName);
      }
    } else {
      mgr.SetSessionName(target, newName);
      r := Renamed(target, newName);
    }
  }
}
