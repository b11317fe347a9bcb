/**
 * The thread list's derived labels: the one-line preview of a thread, the
 * day bucket of a date, and the badge colour of a status.
 */
module SidebarView {
  import opened ChatTypes

  const PreviewLimit := 60
  const EmptyPreview := "New conversation"
  const MsPerDay := 1000 * 60 * 60 * 24

  /** The last message's content cut to 60 characters, with an ellipsis when something was cut. */
  function ThreadPreview(thread: ChatThread): (r: string)
    ensures thread.messages == [] ==> r == EmptyPreview
    ensures thread.messages != [] ==>
              var content := thread.messages[|thread.messages| - 1].content;
              (|content| <= PreviewLimit ==> r == content) &&
              (|content| > PreviewLimit ==> r == content[..PreviewLimit] + "...")
    ensures |r| <= PreviewLimit + 3
  {
    if thread.messages == [] then EmptyPreview
    else
      var content := thread.messages[|thread.messages| - 1].content;
      var preview := if |content| <= PreviewLimit then content else content[..PreviewLimit];
      preview + (if |content| > PreviewLimit then "..." else "")
  }

  /** The day bucket `formatDate` shows; `LocaleDate` stands for the locale-formatted date. */
  datatype DayLabel = Today | Yesterday | DaysAgo(days: int) | LocaleDate(date: int)

  /**
   * The bucket of `date` seen at `now` (both in milliseconds), from the
   * number of whole days between them rounded down. A date in the future
   * gives a negative count, which falls in the "days ago" bucket.
   */
  function FormatDate(now: int, date: int): (r: DayLabel)
    ensures r.Today? <==> 0 <= now - date < MsPerDay
    ensures r.Yesterday? <==> MsPerDay <= now - date < 2 * MsPerDay
    ensures r.DaysAgo? ==> r.days * MsPerDay <= now - date < (r.days + 1) * MsPerDay
    ensures r.DaysAgo? ==> r.days < 7 && r.days != 0 && r.days != 1
    ensures r.LocaleDate? <==> now - date >= 7 * MsPerDay
    ensures r.LocaleDate? ==> r.date == date
  {
    var days := (now - date) / MsPerDay;
    if days == 0 then Today
    else if days == 1 then Yesterday
    else if days < 7 then DaysAgo(days)
    else LocaleDate(date)
  }

  /** Later dates never fall in an older bucket: the buckets are ordered by age. */
  lemma FormatDateMonotone(now: int, older: int, newer: int)
    requires older <= newer <= now
    ensures FormatDate(now, newer).LocaleDate? ==> FormatDate(now, older).LocaleDate?
    ensures FormatDate(now, older).Today? ==> FormatDate(now, newer).Today?
    ensures FormatDate(now, older).Yesterday? ==> FormatDate(now, newer).Today? || FormatDate(now, newer).Yesterday?
    ensures FormatDate(now, older).DaysAgo? && FormatDate(now, newer).DaysAgo? ==>
              FormatDate(now, newer).days <= FormatDate(now, older).days
    ensures FormatDate(now, older).DaysAgo? ==> !FormatDate(now, newer).LocaleDate?
  {
  }

  /** The hue of a status badge. */
  function StatusHue(status: ThreadStatus): string
  {
    match status
    case Active => "green"
    case Completed => "blue"
    case Error => "red"
  }

  /** The badge classes of a thread status: a background class named after the status's hue. */
  function StatusColor(status: ThreadStatus): (r: string)
    ensures |r| > 3 + |StatusHue(status)| && r[..3] == "bg-" && r[3..3 + |StatusHue(status)|] == StatusHue(status)
    ensures r[|r| - 4..] == "-800"
  {
    var hue := StatusHue(status);
    "bg-" + hue + "-100 text-" + hue + "-800"
  }

  /** The three statuses get three different badges. */
  lemma StatusColorsDistinct(a: ThreadStatus, b: ThreadStatus)
    ensures StatusColor(a) == StatusColor(b) <==> a == b
  {
    if StatusColor(a) == StatusColor(b) {
      assert StatusHue(a)[0] == StatusColor(a)[3] == StatusColor(b)[3] == StatusHue(b)[0];
    }
  }
}
