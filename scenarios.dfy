/**
 * Clients of the session that exercise whole conversations, written only
 * against the handlers' contracts.
 */
module Scenarios {
  import opened Wrappers
  import opened Telegram
  import opened Browser
  import opened Bot

  /**
   * Pressing "Clear" twice in a chat that has seen `/start`: both complete,
   * no user entry is left, and the second deletes nothing more.
   */
  method ClearTwice(s: Session, chat: Chat) returns (first: Outcome, second: Outcome)
    requires s.Valid() && chat.Valid() && s.chatKnown
    modifies s, chat, s.drv
    ensures first == Completed && second == Completed
    ensures s.Valid() && s.Empty()
    ensures chat.deleted == old(chat.deleted) + (set id | id in old(s.msgIds)) * old(chat.SentIds())
  {
    first := s.CbClear(chat);
    ghost var deletedOnce := chat.deleted;
    second := s.CbClear(chat);
    assert (set id | id in []) * old(chat.SentIds()) == {};
    assert chat.deleted == deletedOnce;
  }

  /**
   * Pressing "Clear" in a chat the bot has not seen since it started raises
   * `KeyError` on every press and sends and deletes nothing.
   */
  method ClearBeforeStart(chat: Chat) returns (first: Outcome, second: Outcome)
    requires chat.Valid()
    modifies chat
    ensures first == Raised(MissingKey("chat")) && second == first
    ensures chat.log == old(chat.log) && chat.deleted == old(chat.deleted)
  {
    var s := new Session();
    first := s.CbClear(chat);
    second := s.CbClear(chat);
  }

  /**
   * A search whose results page holds five jobs: the session starts
   * browsing at index 0 of 5, and the link message of the first job
   * carries a "Next" button.
   */
  method SearchFiveJobs(chat: Chat, query: string, site: string -> SearchPage) returns (s: Session)
    requires chat.Valid()
    requires Strings.Strip(query) != [] && site(Strings.Strip(query)).Loaded?
    requires |site(Strings.Strip(query)).jobs| == 5
    modifies chat
    ensures fresh(s) && fresh(s.drv) && s.Valid() && chat.Valid()
    ensures s.idx == Some(0) && s.total == Some(5)
    ensures chat.log != [] && chat.log[|chat.log| - 1].content.Text?
    ensures Delivery.NextButton in chat.log[|chat.log| - 1].content.keyboard
  {
    s := new Session();
    s.CmdStart(chat);
    ghost var log0 := chat.log;
    var o := s.OnText(chat, query, site);
    AppendedLast(log0, chat.log, Bot.FirstJobMessages(site(Strings.Strip(query)).jobs));
  }

  /**
   * Browsing five results from the first: four presses of "Next" reach
   * index 4, and a fifth press only answers "No more jobs." and leaves the
   * index where it is.
   */
  method PageToEnd(s: Session, chat: Chat) returns (last: Outcome)
    requires s.Valid() && chat.Valid() && s.idx == Some(0) && s.total == Some(5)
    modifies s, chat, s.drv
    ensures s.Valid() && s.idx == Some(4) && s.total == Some(5) && last == Completed
    ensures |chat.log| > 0 && chat.log[|chat.log| - 1].content == Text(NoMoreNotice, [])
  {
    var k := 0;
    while k < 4
      invariant 0 <= k <= 4
      invariant s.Valid() && chat.Valid() && s.idx == Some(k) && s.total == Some(5)
      invariant s.drv == old(s.drv)
    {
      var o := s.CbNext(chat);
      k := k + 1;
    }
    ghost var log1 := chat.log;
    last := s.CbNext(chat);
    AppendedLast(log1, chat.log, [Text(NoMoreNotice, [])]);
  }
}
