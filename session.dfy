/** The chat session store of the chatgpt plugin: per-group sessions with an
    append-only history, and the manager holding every session ever created
    plus each group's current-session pointer.

    Sessions are objects because the source hands out pointers to them: the
    commands rename the session a lookup returned, and the reply path appends
    to the history of the session it captured. The clock is a parameter:
    `now` is the Unix time in seconds that `time.Now()` gives. */
module ChatSession {
  import opened Text

  /** Go's `time.Now()` is not modelled; records and sessions carry the
      clock reading passed in. */
  datatype Record = Record(userId: int, time: int, message: string, isToMe: bool)

  /** Persona used when a session is created with an empty prompt. */
  function DefaultPrompt(): string
  {
    "语气不用太正经，要俏皮、可爱，可以多加一些可爱的语气词，使得群聊中的所有成员都认为你是一个有趣可爱的人。\n"
    + "另外，群成员都喜欢说话用词带有猫娘特色、性格像猫娘的人，例如频繁地使用“喵”、“呜”等，你可以尝试使用这个语气说话。"
  }

  /** Shown for a session whose name is empty. */
  function UnnamedLabel(): string { "未命名" }

  /** Sessions listed per page. */
  const PageSize: nat := 5

  /** Messages are cut to this many runes in a dialog summary. */
  const DialogRunes: nat := 10

  /** The prompt a new session gets: the default persona replaces "". */
  function EffectivePrompt(prompt: string): (p: string)
    ensures p != ""
    ensures prompt != "" ==> p == prompt
    ensures prompt == "" ==> p == DefaultPrompt()
  {
    if prompt == "" then DefaultPrompt() else prompt
  }

  /** The id `fmt.Sprintf("group-%d-%d", groupId, now)`. Two sessions of one
      group created within the same second get the same id. */
  function GroupSessionId(groupId: int, now: int): string
  {
    "group-" + IntToDecimal(groupId) + "-" + IntToDecimal(now)
  }

  /** The name a summary shows. */
  function ShownName(name: string): (r: string)
    ensures r != ""
    ensures name != "" ==> r == name
  {
    if name == "" then UnnamedLabel() else name
  }

  // ---------------------------------------------------------------------
  // Dialog summaries

  /** One summary line `<uid>: <msg>\n`; newlines in the message become
      spaces and the message keeps its first ten runes. */
  function DialogLine(r: Record): string
  {
    IntToDecimal(r.userId) + ": " + TakeRunes(ReplaceChar(r.message, '\n', ' '), DialogRunes) + "\n"
  }

  /** The summary lines of the given records, in order. */
  function DialogOf(rs: seq<Record>): string
  {
    if rs == [] then "" else DialogOf(rs[..|rs| - 1]) + DialogLine(rs[|rs| - 1])
  }

  /** How many records a summary of `cnt` records shows. */
  function DialogCount(history: seq<Record>, cnt: int): (n: nat)
    ensures n <= |history|
    ensures cnt <= 0 ==> n == 0
    ensures cnt > 0 ==> n == if cnt < |history| then cnt else |history|
  {
    if cnt <= 0 then 0 else if cnt < |history| then cnt else |history|
  }

  /** What `GetDialog(cnt)` returns: the first `cnt` records' lines. */
  function Dialog(history: seq<Record>, cnt: int): string
  {
    DialogOf(history[..DialogCount(history, cnt)])
  }

  /** A summary line ends with its only newline. */
  lemma DialogLineOneNewline(r: Record)
    ensures CountChar(DialogLine(r), '\n') == 1
  {
    var msg := ReplaceChar(r.message, '\n', ' ');
    var cut := TakeRunes(msg, DialogRunes);
    assert '\n' !in cut by {
      forall i | 0 <= i < |cut| ensures cut[i] != '\n' {
        assert cut[i] == msg[i];
      }
    }
    NoNonDigitInIntDecimal(r.userId, '\n');
    CountCharAbsent(IntToDecimal(r.userId), '\n');
    CountCharAbsent(": ", '\n');
    CountCharAbsent(cut, '\n');
    CountCharAppend(IntToDecimal(r.userId), ": ", '\n');
    CountCharAppend(IntToDecimal(r.userId) + ": ", cut, '\n');
    CountCharAppend(IntToDecimal(r.userId) + ": " + cut, "\n", '\n');
  }

  /** A summary of n records has exactly n lines. */
  lemma {:induction false} DialogOfLines(rs: seq<Record>)
    ensures CountChar(DialogOf(rs), '\n') == |rs|
  {
    if rs != [] {
      DialogOfLines(rs[..|rs| - 1]);
      DialogLineOneNewline(rs[|rs| - 1]);
      CountCharAppend(DialogOf(rs[..|rs| - 1]), DialogLine(rs[|rs| - 1]), '\n');
    }
  }

  /** `GetDialog(cnt)` emits min(cnt, len(History)) lines (none for cnt <= 0). */
  lemma DialogLines(history: seq<Record>, cnt: int)
    ensures CountChar(Dialog(history, cnt), '\n') == DialogCount(history, cnt)
  {
    DialogOfLines(history[..DialogCount(history, cnt)]);
  }

  /** Summaries extend record by record. */
  lemma DialogOfSnoc(rs: seq<Record>, i: nat)
    requires i < |rs|
    ensures DialogOf(rs[..i + 1]) == DialogOf(rs[..i]) + DialogLine(rs[i])
  {
    assert rs[..i + 1][..i] == rs[..i];
  }

  // ---------------------------------------------------------------------
  // Sessions

  class Session {
    var sessionId: string
    var sessionName: string
    var prompt: string
    var userId: int
    var groupId: int
    var startTime: int
    var history: seq<Record>

    constructor (id: string, groupId: int, startTime: int, prompt: string)
      ensures sessionId == id && sessionName == "" && this.prompt == prompt
      ensures userId == 0 && this.groupId == groupId && this.startTime == startTime
      ensures history == []
    {
      sessionId := id;
      sessionName := "";
      this.prompt := prompt;
      userId := 0;
      this.groupId := groupId;
      this.startTime := startTime;
      history := [];
    }

    /** Appends one record at the end; nothing else changes. */
    method AddHistory(userId: int, message: string, toMe: bool, now: int)
      modifies this
      ensures history == old(history) + [Record(userId, now, message, toMe)]
      ensures sessionId == old(sessionId) && sessionName == old(sessionName)
      ensures prompt == old(prompt) && this.userId == old(this.userId)
      ensures groupId == old(groupId) && startTime == old(startTime)
    {
      history := history + [Record(userId, now, message, toMe)];
    }

    /** The summary of the first `cnt` records, one line each. */
    method GetDialog(cnt: int) returns (dialog: string)
      ensures dialog == Dialog(history, cnt)
      ensures CountChar(dialog, '\n') == DialogCount(history, cnt)
    {
      dialog := "";
      var h := history;
      var i := 0;
      while i < cnt && i < |h|
        invariant 0 <= i <= |h|
        invariant i <= DialogCount(h, cnt)
        invariant dialog == DialogOf(h[..i])
      {
        DialogOfSnoc(h, i);
        var shortMsg := ReplaceChar(h[i].message, '\n', ' ');
        var runeMsg := TakeRunes(shortMsg, DialogRunes);
        var line := IntToDecimal(h[i].userId) + ": " + runeMsg + "\n";
        assert line == DialogLine(h[i]);
        dialog := dialog + line;
        i := i + 1;
      }
      assert i == DialogCount(h, cnt);
      DialogLines(history, cnt);
    }

    /** The short description listed per session: id, shown name, creation
        time (already formatted by the caller), the first 20 runes of the
        prompt, the record count and the first four records. */
    function GetBrief(timeText: string): (r: string)
      reads this
      ensures var head := "【会话ID】：" + sessionId + "\n【名称】：" + ShownName(sessionName);
              |head| <= |r| && r[..|head|] == head
      ensures var tail := Dialog(history, 4); |tail| <= |r| && r[|r| - |tail|..] == tail
      ensures r == ("【会话ID】：" + sessionId + "\n【名称】：" + ShownName(sessionName))
        + ("\n【时间】：" + timeText
           + "\n【催眠】：" + TakeRunes(prompt, 20)
           + "\n【摘要（共" + IntToDecimal(|history|) + "条）】：\n")
        + Dialog(history, 4)
    {
      var head := "【会话ID】：" + sessionId + "\n【名称】：" + ShownName(sessionName);
      var mid := "\n【时间】：" + timeText
        + "\n【催眠】：" + TakeRunes(prompt, 20)
        + "\n【摘要（共" + IntToDecimal(|history|) + "条）】：\n";
      var tail := Dialog(history, 4);
      Affixes(head, mid, tail);
      head + mid + tail
    }

    /** The long description: the whole prompt and the first ten records. */
    function GetDetail(timeText: string): (r: string)
      reads this
      ensures var head := "【会话ID】：" + sessionId + "\n【会话名称】：" + ShownName(sessionName);
              |head| <= |r| && r[..|head|] == head
      ensures var tail := Dialog(history, 10); |tail| <= |r| && r[|r| - |tail|..] == tail
      ensures r == ("【会话ID】：" + sessionId + "\n【会话名称】：" + ShownName(sessionName))
        + ("\n【创建时间】：" + timeText
           + "\n【催眠咒语】：" + prompt
           + "\n【对话记录（共" + IntToDecimal(|history|) + "条）】：\n")
        + Dialog(history, 10)
    {
      var head := "【会话ID】：" + sessionId + "\n【会话名称】：" + ShownName(sessionName);
      var mid := "\n【创建时间】：" + timeText
        + "\n【催眠咒语】：" + prompt
        + "\n【对话记录（共" + IntToDecimal(|history|) + "条）】：\n";
      var tail := Dialog(history, 10);
      Affixes(head, mid, tail);
      head + mid + tail
    }
  }

  /** a starts and c ends a + b + c. */
  lemma Affixes(a: string, b: string, c: string)
    ensures |a| <= |a + b + c| && (a + b + c)[..|a|] == a
    ensures |c| <= |a + b + c| && (a + b + c)[|a + b + c| - |c|..] == c
  {
  }

  // ---------------------------------------------------------------------
  // Lookups (`lo.Find` over the session list, first match wins)

  /** The three search keys of the manager's lookups. */
  datatype Query =
    | ById(id: string)
    | ByName(name: string)
    | ByGroupIdOrName(groupId: int, key: string)

  predicate Matches(s: Session, q: Query)
    reads s
  {
    match q
    case ById(id) => s.sessionId == id
    case ByName(name) => s.sessionName == name
    case ByGroupIdOrName(g, key) => (s.sessionId == key || s.sessionName == key) && s.groupId == g
  }

  /** Index of the first session matching q, or |ss| when none does. */
  function FirstMatch(ss: seq<Session>, q: Query): (i: nat)
    reads ss
    ensures i <= |ss|
    ensures i < |ss| ==> Matches(ss[i], q)
    ensures forall j :: 0 <= j < i ==> !Matches(ss[j], q)
  {
    if ss == [] then 0
    else if Matches(ss[0], q) then 0
    else 1 + FirstMatch(ss[1..], q)
  }

  /** The sessions of one group, in creation order (`lo.Filter`). */
  function FilterGroup(ss: seq<Session>, groupId: int): (r: seq<Session>)
    reads ss
    ensures |r| <= |ss|
    ensures forall i :: 0 <= i < |r| ==> r[i].groupId == groupId && r[i] in ss
    ensures forall i :: 0 <= i < |ss| && ss[i].groupId == groupId ==> ss[i] in r
  {
    if ss == [] then []
    else
      var rest := FilterGroup(ss[1..], groupId);
      if ss[0].groupId == groupId then [ss[0]] + rest else rest
  }

  /** Filtering is order preserving: a session added at the end is listed
      last, after the earlier ones in their order. */
  lemma {:induction false} FilterGroupSnoc(ss: seq<Session>, s: Session, groupId: int)
    ensures FilterGroup(ss + [s], groupId)
         == FilterGroup(ss, groupId) + (if s.groupId == groupId then [s] else [])
  {
    if ss == [] {
      assert ss + [s] == [s];
    } else {
      assert (ss + [s])[0] == ss[0] && (ss + [s])[1..] == ss[1..] + [s];
      FilterGroupSnoc(ss[1..], s, groupId);
    }
  }

  // ---------------------------------------------------------------------
  // Paging

  datatype PageResult<T> =
    | Page(items: seq<T>, page: int, pageCount: int)
    /** Slicing with a negative start: Go panics. */
    | SlicePanic

  /** `ListGroupHistorySessionsByPage` on an already filtered list:
      page count ⌈n/5⌉, page clamped to [1, page count], then the slice
      `[(page-1)*5 : min(page*5, n)]`. For n = 0 the page is clamped to 0,
      the start to -5, and the slice panics. */
  function Paginate<T>(xs: seq<T>, page: int): (r: PageResult<T>)
    ensures r.SlicePanic? <==> |xs| == 0
    ensures r.Page? ==>
      && r.pageCount == (|xs| + PageSize - 1) / PageSize
      && 1 <= r.page <= r.pageCount
      && (1 <= page <= r.pageCount ==> r.page == page)
      && (page < 1 ==> r.page == 1)
      && (page > r.pageCount ==> r.page == r.pageCount)
      && 1 <= |r.items| <= PageSize
      && (r.page - 1) * PageSize + |r.items| <= |xs|
      && r.items == xs[(r.page - 1) * PageSize .. (r.page - 1) * PageSize + |r.items|]
      && (r.page < r.pageCount ==> |r.items| == PageSize)
  {
    var pageCount := (|xs| + PageSize - 1) / PageSize;
    var p := if page < 1 then 1 else page;
    var p' := if p > pageCount then pageCount else p;
    var start := (p' - 1) * PageSize;
    var end := if start + PageSize > |xs| then |xs| else start + PageSize;
    if 0 <= start <= end then Page(xs[start..end], p', pageCount) else SlicePanic
  }

  /** Every listed item is on exactly the page its position says: the
      k-th session is item k % 5 of page k / 5 + 1. */
  lemma PageOfPosition<T>(xs: seq<T>, k: nat)
    requires k < |xs|
    ensures var r := Paginate(xs, k / PageSize + 1);
            r.Page? && r.page == k / PageSize + 1 && k % PageSize < |r.items|
            && r.items[k % PageSize] == xs[k]
  {
    var r := Paginate(xs, k / PageSize + 1);
    assert k / PageSize + 1 <= (|xs| + PageSize - 1) / PageSize;
    assert r.page == k / PageSize + 1;
    assert (r.page - 1) * PageSize == k - k % PageSize;
  }

  // ---------------------------------------------------------------------
  // The manager

  class SessionManager {
    var groupSessions: map<int, string>
    var sessionHistory: seq<Session>

    /** Every group pointer names a session of that group. */
    ghost predicate Valid()
      reads this, sessionHistory
    {
      forall g :: g in groupSessions ==>
        exists i :: 0 <= i < |sessionHistory|
          && sessionHistory[i].groupId == g && sessionHistory[i].sessionId == groupSessions[g]
    }

    constructor ()
      ensures Valid()
      ensures groupSessions == map[] && sessionHistory == []
    {
      groupSessions := map[];
      sessionHistory := [];
    }

    /** The first session of the list matching q, or null. */
    function Find(q: Query): (r: Session?)
      reads this, sessionHistory
      ensures r == null <==> forall i :: 0 <= i < |sessionHistory| ==> !Matches(sessionHistory[i], q)
      ensures r != null ==>
        exists i :: 0 <= i < |sessionHistory| && sessionHistory[i] == r && Matches(r, q)
          && forall j :: 0 <= j < i ==> !Matches(sessionHistory[j], q)
    {
      var i := FirstMatch(sessionHistory, q);
      if i < |sessionHistory| then sessionHistory[i] else null
    }

    /** First session, in creation order, of the group whose id or name is
        the key. A name equal to another session's id is not told apart. */
    function GetGroupSessionByIdOrName(groupId: int, key: string): (r: Session?)
      reads this, sessionHistory
      ensures r != null ==> r in sessionHistory && r.groupId == groupId
                            && (r.sessionId == key || r.sessionName == key)
      ensures r == null <==> forall s :: s in sessionHistory ==>
                               !(s.groupId == groupId && (s.sessionId == key || s.sessionName == key))
    {
      Find(ByGroupIdOrName(groupId, key))
    }

    /** First session with that id, in any group. */
    function GetSessionById(id: string): (r: Session?)
      reads this, sessionHistory
      ensures r != null ==> r in sessionHistory && r.sessionId == id
      ensures r == null <==> forall s :: s in sessionHistory ==> s.sessionId != id
    {
      Find(ById(id))
    }

    /** First session with that name, in any group. */
    function GetSessionByName(name: string): (r: Session?)
      reads this, sessionHistory
      ensures r != null ==> r in sessionHistory && r.sessionName == name
      ensures r == null <==> forall s :: s in sessionHistory ==> s.sessionName != name
    {
      Find(ByName(name))
    }

    /** The group's current session: null when the group has no pointer,
        otherwise the id-or-name lookup of the stored id. */
    function GetGroupCurrentSession(groupId: int): (r: Session?)
      reads this, sessionHistory
      ensures groupId !in groupSessions ==> r == null
      ensures r != null ==> r in sessionHistory && r.groupId == groupId
    {
      if groupId !in groupSessions then null
      else GetGroupSessionByIdOrName(groupId, groupSessions[groupId])
    }

    /** The sessions of one group in creation order. */
    function ListGroupHistorySessions(groupId: int): (r: seq<Session>)
      reads this, sessionHistory
      ensures forall s :: s in r ==> s in sessionHistory && s.groupId == groupId
      ensures forall s :: s in sessionHistory && s.groupId == groupId ==> s in r
    {
      FilterGroup(sessionHistory, groupId)
    }

    /** One page of the group's sessions, with the page number and count. */
    function ListGroupHistorySessionsByPage(groupId: int, page: int): (r: PageResult<Session>)
      reads this, sessionHistory
      ensures r.SlicePanic? <==> forall s :: s in sessionHistory ==> s.groupId != groupId
      ensures r.Page? ==> forall i :: 0 <= i < |r.items| ==> r.items[i].groupId == groupId
      ensures r.Page? ==>
        1 <= |r.items| <= PageSize && r.pageCount == (|ListGroupHistorySessions(groupId)| + PageSize - 1) / PageSize
    {
      var all := ListGroupHistorySessions(groupId);
      var r := Paginate(all, page);
      assert r.Page? ==> forall i :: 0 <= i < |r.items| ==> r.items[i] in all;
      assert |all| > 0 ==> all[0] in all;
      r
    }

    /** With the invariant, a group has a current session exactly when it
        has a pointer. */
    lemma CurrentSessionPresent(groupId: int)
      requires Valid()
      ensures GetGroupCurrentSession(groupId) != null <==> groupId in groupSessions
    {
      if groupId in groupSessions {
        var i :| 0 <= i < |sessionHistory|
          && sessionHistory[i].groupId == groupId && sessionHistory[i].sessionId == groupSessions[groupId];
        assert Matches(sessionHistory[i], ByGroupIdOrName(groupId, groupSessions[groupId]));
      }
    }

    /** Changing the listed sessions without touching their ids and groups
        keeps the invariant. */
    twostate lemma HistoryChanged()
      requires old(Valid()) && unchanged(this)
      requires forall s :: s in sessionHistory ==> s.groupId == old(s.groupId) && s.sessionId == old(s.sessionId)
      ensures Valid()
    {
      forall g | g in groupSessions
        ensures exists i :: (0 <= i < |sessionHistory|
          && sessionHistory[i].groupId == g && sessionHistory[i].sessionId == groupSessions[g])
      {
        var i :| 0 <= i < |sessionHistory|
          && old(sessionHistory[i].groupId) == g && old(sessionHistory[i].sessionId) == groupSessions[g];
        assert sessionHistory[i] in sessionHistory;
      }
    }

    /** Appends a new session for the group and points the group at it;
        the other pointers and the earlier sessions stay as they were. */
    method CreateGroupSession(groupId: int, prompt: string, now: int) returns (s: Session)
      requires Valid()
      modifies this
      ensures Valid() && fresh(s)
      ensures s.sessionId == GroupSessionId(groupId, now) && s.groupId == groupId
      ensures s.prompt == EffectivePrompt(prompt)
      ensures s.sessionName == "" && s.history == [] && s.startTime == now && s.userId == 0
      ensures groupSessions == old(groupSessions)[groupId := s.sessionId]
      ensures sessionHistory == old(sessionHistory) + [s]
    {
      var p := prompt;
      if p == "" {
        p := DefaultPrompt();
      }
      s := new Session(GroupSessionId(groupId, now), groupId, now, p);
      groupSessions := groupSessions[groupId := s.sessionId];
      sessionHistory := sessionHistory + [s];
      forall g | g in groupSessions
        ensures exists i :: (0 <= i < |sessionHistory|
          && sessionHistory[i].groupId == g && sessionHistory[i].sessionId == groupSessions[g])
      {
        if g == groupId {
          assert sessionHistory[|sessionHistory| - 1] == s;
        } else {
          var i :| 0 <= i < |old(sessionHistory)|
            && old(sessionHistory)[i].groupId == g && old(sessionHistory)[i].sessionId == old(groupSessions)[g];
          assert sessionHistory[i] == old(sessionHistory)[i];
        }
      }
    }

    /** No-op without a current session; otherwise a new session with the
        current one's prompt becomes current and the old one stays listed. */
    method ResetGroupSession(groupId: int, now: int)
      requires Valid()
      modifies this
      ensures Valid()
      ensures var cur := old(GetGroupCurrentSession(groupId));
        if cur == null then
          groupSessions == old(groupSessions) && sessionHistory == old(sessionHistory)
        else
          && |sessionHistory| == |old(sessionHistory)| + 1
          && sessionHistory[..|old(sessionHistory)|] == old(sessionHistory)
          && var s := sessionHistory[|old(sessionHistory)|];
             && fresh(s) && s.groupId == groupId && s.prompt == EffectivePrompt(old(cur.prompt))
             && s.sessionId == GroupSessionId(groupId, now) && s.sessionName == "" && s.history == []
             && s.startTime == now && s.userId == 0
             && groupSessions == old(groupSessions)[groupId := s.sessionId]
    {
      var oldSession := GetGroupCurrentSession(groupId);
      if oldSession != null {
        var prompt := oldSession.prompt;
        var s := CreateGroupSession(groupId, prompt, now);
        assert sessionHistory[|old(sessionHistory)|] == s;
        assert sessionHistory[..|old(sessionHistory)|] == old(sessionHistory);
      }
    }

    /** Repoints the group only when a session of that group matches. */
    method SwitchGroupSessionByIdOrName(groupId: int, key: string)
      requires Valid()
      modifies this
      ensures Valid()
      ensures var r := old(GetGroupSessionByIdOrName(groupId, key));
        groupSessions == if r == null then old(groupSessions) else old(groupSessions)[groupId := r.sessionId]
      ensures sessionHistory == old(sessionHistory)
    {
      var session := GetGroupSessionByIdOrName(groupId, key);
      if session != null {
        groupSessions := groupSessions[groupId := session.sessionId];
        var i :| 0 <= i < |sessionHistory| && sessionHistory[i] == session;
        assert sessionHistory[i].groupId == groupId && sessionHistory[i].sessionId == groupSessions[groupId];
      }
    }

    /** Renames the first session with that id, in any group; no-op when
        there is none. Every other name and every other field stays. */
    method SetSessionName(id: string, name: string)
      requires Valid()
      modifies sessionHistory
      ensures Valid()
      ensures var r := old(GetSessionById(id));
        && (r != null ==> r.sessionName == name)
        && forall s :: s in sessionHistory && s != r ==> s.sessionName == old(s.sessionName)
      ensures forall s :: s in sessionHistory ==>
        && s.sessionId == old(s.sessionId) && s.groupId == old(s.groupId) && s.prompt == old(s.prompt)
        && s.history == old(s.history) && s.startTime == old(s.startTime) && s.userId == old(s.userId)
    {
      var session := GetSessionById(id);
      if session != null {
        session.sessionName := name;
      }
    }
  }
}
