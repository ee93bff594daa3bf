/**
 * The forum section of a town page: a tag filter over the threads it is
 * given, and a new-thread form whose draft title, content and tags the user
 * edits. Submitting the form only resets it; it adds no thread.
 */
module ForumSection {
  import opened Seqs
  import opened Schema

  /** The tag selection that shows every thread. */
  const ALL := "all"
  /** The tags the form offers. */
  const ALL_TAGS: seq<string> := ["Budget", "Board", "Help Requests", "Miscellaneous"]

  /** A thread as the section receives it, with its tag names. */
  datatype ThreadCard = ThreadCard(thread: ForumThread, tags: seq<string>)

  /** The new-thread form's draft. */
  datatype ThreadForm = ThreadForm(title: string, content: string, tags: seq<string>)

  const EMPTY_FORM := ThreadForm("", "", [])

  /**
   * `filteredThreads`: every thread for "all", otherwise the threads whose
   * tags include the selected tag, in their original order.
   */
  function FilteredThreads(threads: seq<ThreadCard>, selectedTag: string): (r: seq<ThreadCard>)
    ensures selectedTag == ALL ==> r == threads
    ensures selectedTag != ALL ==> forall t :: t in r <==> t in threads && selectedTag in t.tags
    ensures selectedTag != ALL ==> forall t :: multiset(r)[t] == if selectedTag in t.tags then multiset(threads)[t] else 0
    ensures IsSubseq(r, threads)
  {
    if selectedTag == ALL then
      IsSubseqRefl(threads);
      threads
    else
      Filter(threads, (t: ThreadCard) => selectedTag in t.tags)
  }

  /**
   * The tag list after toggling `tag`: a tag already present is removed
   * wherever it occurs, an absent tag is appended at the end.
   */
  function ToggleTag(tags: seq<string>, tag: string): (r: seq<string>)
    ensures tag in tags ==> tag !in r && IsSubseq(r, tags) && forall t :: t != tag ==> multiset(r)[t] == multiset(tags)[t]
    ensures tag !in tags ==> r == tags + [tag]
  {
    if tag in tags then Filter(tags, t => t != tag) else tags + [tag]
  }

  /** Toggling an absent tag twice gives back the original list. */
  lemma ToggleTwiceRestores(tags: seq<string>, tag: string)
    requires tag !in tags
    ensures ToggleTag(ToggleTag(tags, tag), tag) == tags
  {
    FilterSkipsRejectedLast(tags, tag, t => t != tag);
    FilterAll(tags, t => t != tag);
  }

  /** The section's state; `threads` is the list it was given and never changes. */
  class Section {
    const threads: seq<ThreadCard>
    var selectedTag: string
    var showNewThreadForm: bool
    var newThread: ThreadForm

    /** The initial state: every topic shown, the form hidden and empty. */
    constructor (threads: seq<ThreadCard>)
      ensures this.threads == threads
      ensures selectedTag == ALL && !showNewThreadForm && newThread == EMPTY_FORM
    {
      this.threads := threads;
      selectedTag, showNewThreadForm, newThread := ALL, false, EMPTY_FORM;
    }

    /** The threads on display under the current tag selection. */
    function Shown(): (r: seq<ThreadCard>)
      reads this
      ensures selectedTag == ALL ==> r == threads
      ensures selectedTag != ALL ==> forall t :: t in r <==> t in threads && selectedTag in t.tags
      ensures IsSubseq(r, threads)
    {
      FilteredThreads(threads, selectedTag)
    }

    /** A tag button (or "All Topics"): select that tag. */
    method SelectTag(tag: string)
      modifies this
      ensures selectedTag == tag
      ensures showNewThreadForm == old(showNewThreadForm) && newThread == old(newThread)
    {
      selectedTag := tag;
    }

    /** Show or hide the new-thread form; the draft is kept. */
    method SetFormShown(shown: bool)
      modifies this
      ensures showNewThreadForm == shown
      ensures selectedTag == old(selectedTag) && newThread == old(newThread)
    {
      showNewThreadForm := shown;
    }

    /** Typing in the title field. */
    method SetTitle(title: string)
      modifies this
      ensures newThread == old(newThread).(title := title)
      ensures selectedTag == old(selectedTag) && showNewThreadForm == old(showNewThreadForm)
    {
      newThread := newThread.(title := title);
    }

    /** Typing in the content field. */
    method SetContent(content: string)
      modifies this
      ensures newThread == old(newThread).(content := content)
      ensures selectedTag == old(selectedTag) && showNewThreadForm == old(showNewThreadForm)
    {
      newThread := newThread.(content := content);
    }

    /** `handleTagToggle`: toggle `tag` in the draft; title, content and the rest of the state are kept. */
    method HandleTagToggle(tag: string)
      modifies this
      ensures newThread.title == old(newThread.title) && newThread.content == old(newThread.content)
      ensures newThread.tags == ToggleTag(old(newThread.tags), tag)
      ensures selectedTag == old(selectedTag) && showNewThreadForm == old(showNewThreadForm)
    {
      newThread := newThread.(tags := ToggleTag(newThread.tags, tag));
    }

    /** `handleCreateThread`: hide the form and reset the draft; no thread is added and the filter is kept. */
    method HandleCreateThread()
      modifies this
      ensures !showNewThreadForm && newThread == EMPTY_FORM
      ensures selectedTag == old(selectedTag)
    {
      showNewThreadForm := false;
      newThread := EMPTY_FORM;
    }
  }
}
