/**
 * The per-chat session: the entries the bot keeps for one chat and the four
 * update handlers that change them, together with the two delivery steps
 * the handlers share (sending one job, deleting what was sent).
 */
module Bot {
  import opened Wrappers
  import opened Strings
  import opened Telegram
  import opened Browser
  import opened Delivery

  const StartPrompt: string := "Send your LinkedIn search query (e.g., 'Online Reputation Management')."
  const EmptyQueryPrompt: string := "Please type a search query, e.g., Online Reputation Management"
  const TimeoutNotice: string := "Timed out loading results; saved fail.png for debugging."
  const NoJobsNotice: string := "No jobs found for that query."
  const NoMoreNotice: string := "No more jobs."
  const ClearedNotice: string := "Chat cleared. Send /start to run again."

  /** The messages that present the first job of a non-empty result list. */
  function FirstJobMessages(jobs: seq<Job>): seq<Content>
    requires jobs != []
  {
    JobMessages(TitleOrDefault(OpenJobTitle(LinkTextsOf(jobs), 0)), 0, |jobs|,
                Strip(jobs[0].detailText), jobs[0].url)
  }

  /** The exceptions a handler lets escape to the framework's error handler. */
  datatype Failure = NavigationTimeout | MissingKey(key: string)

  datatype Outcome = Completed | Raised(failure: Failure)

  /**
   * The entries stored for one chat. A missing `idx` or `total` entry is
   * `None`, a missing driver is `null`; a missing `awaiting_query` reads as
   * false and a missing `msg_ids` as the empty list, as the handlers read them.
   * `chatKnown` records whether the chat's own `chat` entry has been stored;
   * only `/start` stores it, and clearing the user's entries keeps it.
   */
  class Session {
    var chatKnown: bool
    var awaitingQuery: bool
    var drv: Driver?
    var idx: Option<int>
    var total: Option<int>
    var msgIds: seq<int>

    /** The driver this session holds, as a frame. */
    ghost function Drivers(): set<Driver>
      reads this`drv
    {
      if drv == null then {} else {drv}
    }

    /**
     * While a query is awaited no driver, index or count is stored; a driver is held
     * exactly when an index is, and it is live; once the result count is
     * known it is the number of job cards. Awaiting a query or holding a
     * driver is only reachable through `/start`, so the chat entry is stored then.
     */
    ghost predicate Consistent()
      reads this`chatKnown, this`awaitingQuery, this`drv, this`idx, this`total, Drivers()`quit, Drivers()`shown, Drivers()`jobs
    {
      && (awaitingQuery ==> drv == null && idx == None && total == None)
      && (awaitingQuery || drv != null ==> chatKnown)
      && (drv == null <==> idx == None)
      && (drv != null ==> !awaitingQuery && !drv.quit && drv.Valid() && idx.value >= 0)
      && (total != None ==> drv != null && total.value == |drv.jobs|)
    }

    /** Between updates, moreover: while browsing a non-empty list `0 <= idx < total` and the browser shows card `idx`. */
    ghost predicate Valid()
      reads this`chatKnown, this`awaitingQuery, this`drv, this`idx, this`total, Drivers()`quit, Drivers()`shown, Drivers()`jobs, Drivers()`url
    {
      && Consistent()
      && (total != None && total.value > 0 ==>
            idx.value < total.value && drv.shown == Some(idx.value)
            && drv.url == drv.jobs[idx.value].url)
    }

    /** No entry is stored for the user (the chat entry is not among them). */
    predicate Empty()
      reads this
    {
      !awaitingQuery && drv == null && idx == None && total == None && msgIds == []
    }

    /** A chat the bot has not seen since it started: no entries at all. */
    constructor ()
      ensures Valid() && Empty() && !chatKnown
    {
      chatKnown := false;
      awaitingQuery, drv, idx, total, msgIds := false, null, None, None, [];
    }

    /**
     * `/start`: forget all user entries (the driver is dropped, not quit),
     * store the chat entry, await a query and prompt for it.
     */
    method CmdStart(chat: Chat)
      requires Valid() && chat.Valid()
      modifies this, chat
      ensures Valid() && chat.Valid()
      ensures chatKnown && awaitingQuery && drv == null && idx == None && total == None && msgIds == []
      ensures Appended(old(chat.log), chat.log, [Text(StartPrompt, [])])
      ensures chat.deleted == old(chat.deleted)
    {
      chatKnown := true;
      awaitingQuery, drv, idx, total, msgIds := true, null, None, None, [];
      var _ := chat.SendMessage(StartPrompt, []);
    }

    /**
     * A text message. Ignored unless a query is awaited; a blank query gets a
     * prompt; otherwise a fresh driver searches the site for the stripped
     * query, and the first job is delivered when there is one.
     */
    method OnText(chat: Chat, text: string, site: string -> SearchPage) returns (outcome: Outcome)
      requires Valid() && chat.Valid()
      modifies this, chat
      ensures Valid() && chat.Valid()
      ensures chat.deleted == old(chat.deleted) && chatKnown == old(chatKnown)
      ensures !old(awaitingQuery) ==>
        outcome == Completed && unchanged(this) && chat.log == old(chat.log)
      ensures old(awaitingQuery) && Strip(text) == [] ==>
        && outcome == Completed && unchanged(this)
        && Appended(old(chat.log), chat.log, [Text(EmptyQueryPrompt, [])])
      ensures old(awaitingQuery) && Strip(text) != [] ==>
        fresh(drv) && Searched(old(chat.log), chat.log, old(msgIds), site(Strip(text)), outcome)
    {
      if !awaitingQuery {
        return Completed;
      }
      var query := Strip(text);
      if query == [] {
        var _ := chat.SendMessage(EmptyQueryPrompt, []);
        return Completed;
      }
      outcome := Search(chat, site(query));
    }

    /**
     * What a real query leads to, given the page the site answers with:
     * browsing starts at index 0 on a driver of its own; a timeout is
     * reported and raised with no result count stored; an empty page is
     * reported; otherwise the count is stored and the first job delivered.
     */
    ghost predicate Searched(log0: seq<Message>, log1: seq<Message>, ids0: seq<int>,
                             page: SearchPage, outcome: Outcome)
      reads this, drv
    {
      && !awaitingQuery && idx == Some(0) && drv != null
      && (page.TimedOut? ==>
            && outcome == Raised(NavigationTimeout) && total == None && msgIds == ids0
            && Appended(log0, log1, [Text(TimeoutNotice, [])]))
      && (page.Loaded? ==>
            outcome == Completed && drv.jobs == page.jobs && total == Some(|page.jobs|))
      && (page.Loaded? && page.jobs == [] ==>
            msgIds == ids0 && Appended(log0, log1, [Text(NoJobsNotice, [])]))
      && (page.Loaded? && page.jobs != [] ==>
            && Appended(log0, log1, FirstJobMessages(page.jobs))
            && |log0| <= |log1| && msgIds == ids0 + NewIds(log0, log1))
    }

    /** The part of a text message's handling that follows a real query. */
    method Search(chat: Chat, page: SearchPage) returns (outcome: Outcome)
      requires Valid() && chat.Valid() && awaitingQuery
      modifies this, chat
      ensures Valid() && chat.Valid()
      ensures chat.deleted == old(chat.deleted) && chatKnown == old(chatKnown)
      ensures fresh(drv) && Searched(old(chat.log), chat.log, old(msgIds), page, outcome)
    {
      awaitingQuery := false;
      var d := new Driver();
      drv, idx := d, Some(0);
      var loaded := d.Navigate(page);
      if !loaded {
        var m := chat.SendMessage(TimeoutNotice, []);
        AppendedOne(old(chat.log), Message(m, Text(TimeoutNotice, [])));
        return Raised(NavigationTimeout);
      }
      total := Some(|d.jobs|);
      ShowResults(chat);
      return Completed;
    }

    /**
     * Report a loaded result list: a notice when it is empty, otherwise the
     * first card, opened and delivered.
     */
    method ShowResults(chat: Chat)
      requires Consistent() && chat.Valid()
      requires idx == Some(0) && total == Some(|drv.jobs|)
      modifies this`msgIds, chat, drv`shown, drv`url, drv`windowHeight
      ensures Valid() && chat.Valid()
      ensures chat.deleted == old(chat.deleted)
      ensures drv.jobs == [] ==>
        msgIds == old(msgIds) && Appended(old(chat.log), chat.log, [Text(NoJobsNotice, [])])
      ensures drv.jobs != [] ==>
        && Appended(old(chat.log), chat.log, FirstJobMessages(drv.jobs))
        && msgIds == old(msgIds) + NewIds(old(chat.log), chat.log)
    {
      if |drv.jobs| == 0 {
        var m := chat.SendMessage(NoJobsNotice, []);
        AppendedOne(old(chat.log), Message(m, Text(NoJobsNotice, [])));
        return;
      }
      ShowFirst(chat);
    }

    /** Open the first card of a non-empty result list and deliver it. */
    method ShowFirst(chat: Chat)
      requires Consistent() && chat.Valid()
      requires idx == Some(0) && total == Some(|drv.jobs|) && drv.jobs != []
      modifies this`msgIds, chat, drv`shown, drv`url, drv`windowHeight
      ensures Valid() && chat.Valid()
      ensures chat.deleted == old(chat.deleted)
      ensures Appended(old(chat.log), chat.log, FirstJobMessages(drv.jobs))
      ensures msgIds == old(msgIds) + NewIds(old(chat.log), chat.log)
    {
      var title := drv.OpenJob(0);
      assert Valid();
      SendJob(chat, TitleOrDefault(title));
      assert Valid();
      assert FirstJobMessages(drv.jobs)
          == JobMessages(TitleOrDefault(title), 0, |drv.jobs|, Strip(drv.jobs[0].detailText), drv.jobs[0].url);
    }

    /**
     * The "next" button. A missing `idx` or `total` entry raises `KeyError`
     * (the index is read first). At the last job it only answers "No more
     * jobs."; otherwise the index moves on by one and that job is delivered.
     */
    method CbNext(chat: Chat) returns (outcome: Outcome)
      requires Valid() && chat.Valid()
      modifies this, chat, drv
      ensures Valid() && chat.Valid()
      ensures chatKnown == old(chatKnown) && awaitingQuery == old(awaitingQuery)
      ensures drv == old(drv) && total == old(total)
      ensures old(drv) != null ==> drv.jobs == old(drv.jobs) && !drv.quit
      ensures !(old(idx) != None && old(total) != None && old(idx).value + 1 < old(total).value) ==>
        drv == null || (drv.url == old(drv.url) && drv.windowHeight == old(drv.windowHeight)
                        && drv.shown == old(drv.shown))
      ensures chat.deleted == old(chat.deleted)
      ensures old(idx) == None ==>
        && outcome == Raised(MissingKey("idx"))
        && idx == old(idx) && msgIds == old(msgIds) && chat.log == old(chat.log)
      ensures old(idx) != None && old(total) == None ==>
        && outcome == Raised(MissingKey("total"))
        && idx == old(idx) && msgIds == old(msgIds) && chat.log == old(chat.log)
      ensures old(idx) != None && old(total) != None && old(idx).value + 1 >= old(total).value ==>
        && outcome == Completed && idx == old(idx) && msgIds == old(msgIds)
        && Appended(old(chat.log), chat.log, [Text(NoMoreNotice, [])])
      ensures old(idx) != None && old(total) != None && old(idx).value + 1 < old(total).value ==>
        && outcome == Completed && idx == Some(old(idx).value + 1)
        && Appended(old(chat.log), chat.log,
             JobMessages(OpenJobTitle(LinkTextsOf(drv.jobs), idx.value).value, idx.value, total.value,
                         Strip(drv.jobs[idx.value].detailText), drv.jobs[idx.value].url))
        && msgIds == old(msgIds) + NewIds(old(chat.log), chat.log)
      ensures old(idx) != None ==> idx != None && idx.value >= old(idx).value
    {
      if idx == None {
        return Raised(MissingKey("idx"));
      }
      if total == None {
        return Raised(MissingKey("total"));
      }
      if idx.value + 1 >= total.value {
        var _ := chat.SendMessage(NoMoreNotice, []);
        return Completed;
      }
      idx := Some(idx.value + 1);
      var title := drv.OpenJob(idx.value);
      SendJob(chat, title.value);
      assert Valid();
      return Completed;
    }

    /**
     * The "clear" button: delete every recorded message, quit the driver if
     * one is held, forget every user entry and say so. Without a stored chat
     * entry the lookup that starts the deletion raises `KeyError` first, and
     * nothing happens.
     */
    method CbClear(chat: Chat) returns (outcome: Outcome)
      requires Valid() && chat.Valid()
      modifies this, chat, drv
      ensures Valid() && chat.Valid()
      ensures !old(chatKnown) ==>
        && outcome == Raised(MissingKey("chat"))
        && unchanged(this) && chat.log == old(chat.log) && chat.deleted == old(chat.deleted)
      ensures old(chatKnown) ==>
        && outcome == Completed && chatKnown && Empty()
        && (old(drv) != null ==> old(drv).quit)
        && chat.deleted == old(chat.deleted) + (set id | id in old(msgIds)) * old(chat.SentIds())
        && Appended(old(chat.log), chat.log, [Text(ClearedNotice, [])])
    {
      outcome := ClearMsgs(chat);
      if outcome.Raised? {
        return;
      }
      var d := drv;
      drv := null;
      if d != null {
        d.Quit();
      }
      awaitingQuery, idx, total, msgIds := false, None, None, [];
      var _ := chat.SendMessage(ClearedNotice, []);
      return Completed;
    }

    /**
     * Deliver the job at `idx`: capture its pane, then send the captioned
     * screenshot, the text chunks and the link with its buttons, and record
     * every new message id in send order after the ones already recorded.
     * A driver is held, so the chat entry looked up after the capture is stored.
     */
    method SendJob(chat: Chat, title: string)
      requires Valid() && chat.Valid()
      requires total != None && total.value > 0
      modifies this`msgIds, chat, drv`windowHeight
      ensures Valid() && chat.Valid()
      ensures drv.windowHeight == ViewportHeight(drv.jobs[idx.value].scrollHeight)
      ensures Appended(old(chat.log), chat.log,
                JobMessages(title, idx.value, total.value,
                            Strip(drv.jobs[idx.value].detailText), drv.jobs[idx.value].url))
      ensures msgIds == old(msgIds) + NewIds(old(chat.log), chat.log)
      ensures chat.deleted == old(chat.deleted)
    {
      var d, i, n := drv, idx.value, total.value;
      ghost var job := d.jobs[i];
      var text := d.Capture();
      assert text == Strip(job.detailText) && d.url == job.url;
      var ids := Deliver(chat, title, i, n, text, d.url);
      msgIds := msgIds + ids;
    }

    /**
     * Look up the chat, try to delete every recorded message (failures are
     * ignored), then record none. A missing chat entry raises `KeyError`
     * before anything is deleted.
     */
    method ClearMsgs(chat: Chat) returns (outcome: Outcome)
      requires Valid()
      modifies this`msgIds, chat`deleted
      ensures Valid()
      ensures !chatKnown ==>
        outcome == Raised(MissingKey("chat")) && msgIds == old(msgIds) && chat.deleted == old(chat.deleted)
      ensures chatKnown ==>
        && outcome == Completed && msgIds == []
        && chat.deleted == old(chat.deleted) + (set id | id in old(msgIds)) * chat.SentIds()
    {
      if !chatKnown {
        return Raised(MissingKey("chat"));
      }
      var i := 0;
      while i < |msgIds|
        invariant msgIds == old(msgIds) && 0 <= i <= |msgIds|
        invariant chat.deleted == old(chat.deleted) + (set id | id in msgIds[..i]) * chat.SentIds()
      {
        var _ := chat.DeleteMessage(msgIds[i]);
        assert msgIds[..i + 1] == msgIds[..i] + [msgIds[i]];
        i := i + 1;
      }
      assert msgIds[..i] == msgIds;
      msgIds := [];
      return Completed;
    }
  }

  /**
   * Send job `idx` of `total`: the captioned screenshot, the chunks of
   * `text`, then `link` with the button row; the ids come back in send order.
   */
  method Deliver(chat: Chat, title: string, idx: int, total: int, text: string, link: string)
    returns (ids: seq<int>)
    requires chat.Valid()
    modifies chat`log, chat`nextId
    ensures chat.Valid()
    ensures Appended(old(chat.log), chat.log, JobMessages(title, idx, total, text, link))
    ensures ids == NewIds(old(chat.log), chat.log)
  {
    var caption, buttons := Caption(title, idx, total), Controls(idx, total);
    ghost var log0 := chat.log;
    var p := chat.SendPhoto(caption);
    AppendedOne(log0, Message(p, Photo(caption)));
    ghost var log1 := chat.log;
    var chunkIds: seq<int> := [];
    if text != [] {
      chunkIds := SendChunks(chat, text);
    } else {
      assert Appended(log1, chat.log, ChunkMessages(Chunks(text))) by {
        assert chat.log[|log1|..] == [];
      }
    }
    AppendedTrans(log0, log1, chat.log, [Photo(caption)], ChunkMessages(Chunks(text)));
    ghost var log2 := chat.log;
    var l := chat.SendMessage(link, buttons);
    AppendedOne(log2, Message(l, Text(link, buttons)));
    AppendedTrans(log0, log2, chat.log, [Photo(caption)] + ChunkMessages(Chunks(text)), [Text(link, buttons)]);
    ids := [p] + chunkIds + [l];
  }

  /**
   * Send `text` as consecutive plain messages of at most `MaxText`
   * characters each, returning their ids in send order.
   */
  method SendChunks(chat: Chat, text: string) returns (ids: seq<int>)
    requires chat.Valid() && text != []
    modifies chat`log, chat`nextId
    ensures chat.Valid()
    ensures Appended(old(chat.log), chat.log, ChunkMessages(Chunks(text)))
    ensures ids == NewIds(old(chat.log), chat.log)
  {
    ids := [];
    ghost var all := ChunksFrom(text, 0);
    assert all == Chunks(text);
    ghost var done: seq<string> := [];
    var pos: nat := 0;
    assert Appended(old(chat.log), chat.log, []) by {
      assert chat.log[|old(chat.log)|..] == [];
    }
    while pos < |text|
      invariant chat.Valid()
      invariant done + ChunksFrom(text, pos) == all
      invariant Appended(old(chat.log), chat.log, ChunkMessages(done))
      invariant ids == NewIds(old(chat.log), chat.log)
      decreases |text| - pos
    {
      var chunk := Slice(text, pos, pos + MaxText);
      assert ChunksFrom(text, pos) == [chunk] + ChunksFrom(text, pos + MaxText);
      ghost var log0 := chat.log;
      var m := chat.SendMessage(chunk, []);
      ChunkSent(old(chat.log), log0, done, Message(m, Text(chunk, [])));
      ids, done := ids + [m], done + [chunk];
      pos := pos + MaxText;
    }
    assert ChunksFrom(text, pos) == [];
    assert done == Chunks(text);
  }

  /** Sending one more chunk extends the batch of chunk messages and its ids by one. */
  lemma ChunkSent(log0: seq<Message>, log1: seq<Message>, done: seq<string>, m: Message)
    requires Appended(log0, log1, ChunkMessages(done)) && m.content.Text? && m.content.keyboard == []
    ensures Appended(log0, log1 + [m], ChunkMessages(done + [m.content.text]))
    ensures NewIds(log0, log1 + [m]) == NewIds(log0, log1) + [m.id]
  {
    AppendedOne(log1, m);
    AppendedTrans(log0, log1, log1 + [m], ChunkMessages(done), [m.content]);
    ChunkMessagesAppend(done, m.content.text);
  }
}
