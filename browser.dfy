/**
 * The headless browser, seen from the bot as an oracle: after a search it
 * shows a list of job cards; opening a card shows its detail pane, whose
 * text, rendered height and page location the model takes as given.
 */
module Browser {
  import opened Wrappers
  import opened Strings

  /** One job card of a results page as the browser would show it. */
  datatype Job = Job(linkText: string, detailText: string, scrollHeight: int, url: string)

  /** What navigating to the results page yields: a timeout, or a page of job cards. */
  datatype SearchPage = TimedOut | Loaded(url: string, jobs: seq<Job>)

  /** The window height the driver is started with (`--window-size=1280,3000`). */
  const InitialWindowHeight: int := 3000
  /** Extra room added below the detail pane before the screenshot. */
  const ViewportMargin: int := 120
  /** The largest window height ever requested. */
  const MaxViewportHeight: int := 16000

  /**
   * The window height chosen before capturing a pane of height `fullHeight`:
   * the pane plus the margin, unless that exceeds the cap.
   */
  function ViewportHeight(fullHeight: int): (h: int)
    ensures h <= MaxViewportHeight
    ensures h <= fullHeight + ViewportMargin
    ensures h == fullHeight + ViewportMargin || h == MaxViewportHeight
  {
    if fullHeight + ViewportMargin < MaxViewportHeight then fullHeight + ViewportMargin
    else MaxViewportHeight
  }

  /** The texts of the job-card links of a page, in order. */
  function LinkTextsOf(jobs: seq<Job>): (links: seq<string>)
    ensures |links| == |jobs|
    ensures forall k :: 0 <= k < |jobs| ==> links[k] == jobs[k].linkText
  {
    if jobs == [] then [] else [jobs[0].linkText] + LinkTextsOf(jobs[1..])
  }

  /** A taller pane never gets a shorter window. */
  lemma ViewportHeightMonotonic(a: int, b: int)
    requires a <= b
    ensures ViewportHeight(a) <= ViewportHeight(b)
  {
  }

  /**
   * The title for card `idx` of a page whose cards read `links`: absent when
   * the index is out of range, otherwise the stripped card text, or
   * "Job <idx+1>" when that text is blank. A title that is present is never empty.
   */
  function OpenJobTitle(links: seq<string>, idx: nat): (title: Option<string>)
    ensures title.None? <==> idx >= |links|
    ensures title.Some? ==> title.value != []
    ensures title.Some? ==>
      title.value == (if Strip(links[idx]) != [] then Strip(links[idx]) else FallbackTitle(idx))
  {
    if idx >= |links| then None
    else
      var t := Strip(links[idx]);
      Some(if t != [] then t else FallbackTitle(idx))
  }

  /** "Job <idx+1>": "Job " followed by a decimal numeral. */
  function FallbackTitle(idx: nat): (t: string)
    ensures |t| > 4 && t[..4] == "Job " && AllDigits(t[4..])
  {
    "Job " + NatToDecimal(idx + 1)
  }

  /** Python's `title or "Job 1"` on the result of opening the first card. */
  function TitleOrDefault(title: Option<string>): (t: string)
    ensures t != []
    ensures title.Some? && title.value != [] ==> t == title.value
    ensures !(title.Some? && title.value != []) ==> t == "Job 1"
  {
    if title.Some? && title.value != [] then title.value else "Job 1"
  }

  /** On a non-empty page the "Job 1" default is never used: opening card 0 already yields a title. */
  lemma FirstTitleNeedsNoDefault(links: seq<string>)
    requires links != []
    ensures TitleOrDefault(OpenJobTitle(links, 0)) == OpenJobTitle(links, 0).value
  {
  }

  /** The fallback title names the 1-based position of the card. */
  lemma {:induction false} FallbackTitleNamesPosition(idx: nat)
    ensures |FallbackTitle(idx)| > 4 && FallbackTitle(idx)[..4] == "Job "
    ensures AllDigits(FallbackTitle(idx)[4..]) && DecimalToNat(FallbackTitle(idx)[4..]) == idx + 1
  {
    var t := FallbackTitle(idx);
    assert t[4..] == NatToDecimal(idx + 1);
    DecimalRoundTrip(idx + 1);
  }

  /**
   * The browser driver a session owns. `jobs` and `url` are what the current
   * page shows, `shown` the card whose detail pane is displayed.
   */
  class Driver {
    var jobs: seq<Job>
    var url: string
    var shown: Option<nat>
    var windowHeight: int
    var quit: bool

    ghost predicate Valid()
      reads this`shown, this`jobs
    {
      shown.Some? ==> shown.value < |jobs|
    }

    /** A fresh browser on an empty page. */
    constructor ()
      ensures Valid()
      ensures jobs == [] && url == "" && shown == None
      ensures windowHeight == InitialWindowHeight && !quit
    {
      jobs, url, shown := [], "", None;
      windowHeight, quit := InitialWindowHeight, false;
    }

    /** Reach the results page; `loaded` is false when the wait for job cards timed out. */
    method Navigate(page: SearchPage) returns (loaded: bool)
      requires Valid()
      modifies this`jobs, this`url, this`shown
      ensures Valid()
      ensures loaded <==> page.Loaded?
      ensures loaded ==> jobs == page.jobs && url == page.url && shown == None
      ensures !loaded ==> jobs == old(jobs) && url == old(url) && shown == old(shown)
    {
      loaded := page.Loaded?;
      if loaded {
        jobs, url, shown := page.jobs, page.url, None;
      }
    }

    /** The texts of the job-card links on the current page. */
    function LinkTexts(): (links: seq<string>)
      reads this
      ensures |links| == |jobs|
      ensures forall k :: 0 <= k < |jobs| ==> links[k] == jobs[k].linkText
    {
      LinkTextsOf(jobs)
    }

    /**
     * Open card `idx`: out of range, nothing happens and there is no title;
     * otherwise its detail pane is shown and the page location becomes the card's.
     */
    method OpenJob(idx: nat) returns (title: Option<string>)
      requires Valid()
      modifies this`shown, this`url
      ensures Valid()
      ensures title == OpenJobTitle(LinkTexts(), idx)
      ensures idx < |jobs| ==> shown == Some(idx) && url == jobs[idx].url
      ensures idx >= |jobs| ==> shown == old(shown) && url == old(url)
    {
      var links := LinkTexts();
      if idx >= |links| {
        return None;
      }
      var t := Strip(links[idx]);
      title := Some(if t != [] then t else FallbackTitle(idx));
      shown, url := Some(idx), jobs[idx].url;
    }

    /**
     * Capture the displayed detail pane: the window is resized to fit it and
     * its stripped text is returned.
     */
    method Capture() returns (text: string)
      requires Valid() && shown.Some?
      modifies this`windowHeight
      ensures windowHeight == ViewportHeight(jobs[shown.value].scrollHeight)
      ensures text == Strip(jobs[shown.value].detailText)
    {
      var job := jobs[shown.value];
      windowHeight := ViewportHeight(job.scrollHeight);
      text := Strip(job.detailText);
    }

    /** Terminate the browser process. */
    method Quit()
      modifies this`quit
      ensures quit
    {
      quit := true;
    }
  }
}
