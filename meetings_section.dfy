/**
 * The meetings section of a town page: a committee filter whose buttons are
 * "all" and the distinct committee names, the filtered meetings split into
 * upcoming and past, and the meeting whose details are open.
 */
module MeetingsSection {
  import opened Wrappers
  import opened Seqs
  import opened Schema

  const ALL := "all"
  const UPCOMING := "upcoming"
  const PAST := "past"

  /** The committee of each meeting, in order. */
  function CommitteeNames(meetings: seq<Meeting>): (r: seq<string>)
    ensures |r| == |meetings| && forall i :: 0 <= i < |meetings| ==> r[i] == meetings[i].committee
  {
    seq(|meetings|, i requires 0 <= i < |meetings| => meetings[i].committee)
  }

  /**
   * `committees`: "all" followed by every committee name once, in the order
   * of its first meeting.
   */
  function Committees(meetings: seq<Meeting>): (r: seq<string>)
    ensures |r| >= 1 && r[0] == ALL
    ensures NoDuplicates(r[1..])
    ensures forall c :: c in r[1..] <==> exists m :: m in meetings && m.committee == c
    ensures forall i :: 1 <= i < |r| ==> r[i] in CommitteeNames(meetings)
    ensures forall i, j :: 1 <= i < j < |r| ==>
      FirstIndex(CommitteeNames(meetings), r[i]) < FirstIndex(CommitteeNames(meetings), r[j])
  {
    var names := CommitteeNames(meetings);
    var r := [ALL] + Distinct(names);
    assert r[1..] == Distinct(names);
    assert forall c :: c in names <==> exists m :: m in meetings && m.committee == c by {
      forall c ensures c in names <==> exists m :: m in meetings && m.committee == c {
        if c in names {
          var i :| 0 <= i < |names| && names[i] == c;
          assert meetings[i] in meetings;
        }
        if exists m :: m in meetings && m.committee == c {
          var m :| m in meetings && m.committee == c;
          var i :| 0 <= i < |meetings| && meetings[i] == m;
          assert names[i] == c;
        }
      }
    }
    r
  }

  /** `filteredMeetings`: every meeting for "all", otherwise those of the selected committee, in order. */
  function FilteredMeetings(meetings: seq<Meeting>, committee: string): (r: seq<Meeting>)
    ensures committee == ALL ==> r == meetings
    ensures committee != ALL ==> forall m :: m in r <==> m in meetings && m.committee == committee
    ensures forall m :: multiset(r)[m] == if committee == ALL || m.committee == committee then multiset(meetings)[m] else 0
    ensures IsSubseq(r, meetings)
  {
    if committee == ALL then
      IsSubseqRefl(meetings);
      meetings
    else
      Filter(meetings, (m: Meeting) => m.committee == committee)
  }

  /** The meetings with status "upcoming", in order. */
  function Upcoming(meetings: seq<Meeting>): (r: seq<Meeting>)
    ensures forall m :: m in r <==> m in meetings && m.status == UPCOMING
    ensures forall m :: multiset(r)[m] == if m.status == UPCOMING then multiset(meetings)[m] else 0
    ensures IsSubseq(r, meetings)
  {
    Filter(meetings, (m: Meeting) => m.status == UPCOMING)
  }

  /** The meetings with status "past", in order. */
  function Past(meetings: seq<Meeting>): (r: seq<Meeting>)
    ensures forall m :: m in r <==> m in meetings && m.status == PAST
    ensures forall m :: multiset(r)[m] == if m.status == PAST then multiset(meetings)[m] else 0
    ensures IsSubseq(r, meetings)
  {
    Filter(meetings, (m: Meeting) => m.status == PAST)
  }

  /**
   * No meeting is both upcoming and past, and together the two lists hold
   * at most the filtered meetings (fewer when some status is neither).
   */
  lemma UpcomingPastPartition(meetings: seq<Meeting>)
    ensures forall m :: !(m in Upcoming(meetings) && m in Past(meetings))
    ensures |Upcoming(meetings)| + |Past(meetings)| <= |meetings|
  {
    FilterDisjoint(meetings, (m: Meeting) => m.status == UPCOMING, (m: Meeting) => m.status == PAST);
  }

  /** The section's state; `meetings` is the list it was given. */
  class Section {
    const meetings: seq<Meeting>
    var selectedCommittee: string
    var selectedMeeting: Option<Meeting>

    /** The initial state: every committee, no meeting open. */
    constructor (meetings: seq<Meeting>)
      ensures this.meetings == meetings
      ensures selectedCommittee == ALL && selectedMeeting == None
    {
      this.meetings := meetings;
      selectedCommittee, selectedMeeting := ALL, None;
    }

    /** The upcoming meetings of the selected committee. */
    function ShownUpcoming(): (r: seq<Meeting>)
      reads this
      ensures forall m :: m in r <==> m in meetings && m.status == UPCOMING
                                      && (selectedCommittee == ALL || m.committee == selectedCommittee)
      ensures forall m :: multiset(r)[m] == (if m.status == UPCOMING && (selectedCommittee == ALL || m.committee == selectedCommittee)
                                             then multiset(meetings)[m] else 0)
      ensures IsSubseq(r, meetings)
    {
      var filtered := FilteredMeetings(meetings, selectedCommittee);
      IsSubseqTrans(Upcoming(filtered), filtered, meetings);
      Upcoming(filtered)
    }

    /** The past meetings of the selected committee. */
    function ShownPast(): (r: seq<Meeting>)
      reads this
      ensures forall m :: m in r <==> m in meetings && m.status == PAST
                                      && (selectedCommittee == ALL || m.committee == selectedCommittee)
      ensures forall m :: multiset(r)[m] == (if m.status == PAST && (selectedCommittee == ALL || m.committee == selectedCommittee)
                                             then multiset(meetings)[m] else 0)
      ensures IsSubseq(r, meetings)
    {
      var filtered := FilteredMeetings(meetings, selectedCommittee);
      IsSubseqTrans(Past(filtered), filtered, meetings);
      Past(filtered)
    }

    /** A committee button: select that committee; the open meeting stays open. */
    method SelectCommittee(committee: string)
      modifies this
      ensures selectedCommittee == committee && selectedMeeting == old(selectedMeeting)
    {
      selectedCommittee := committee;
    }

    /** Clicking a meeting card opens its details. */
    method OpenMeeting(m: Meeting)
      modifies this
      ensures selectedMeeting == Some(m) && selectedCommittee == old(selectedCommittee)
    {
      selectedMeeting := Some(m);
    }

    /** The close button of the details view. */
    method CloseMeeting()
      modifies this
      ensures selectedMeeting == None && selectedCommittee == old(selectedCommittee)
    {
      selectedMeeting := None;
    }
  }
}
