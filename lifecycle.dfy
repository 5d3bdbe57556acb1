/** The achievement lifecycle and the guard chains in front of each transition.

    An achievement reference is created as a draft. Its owner may edit it,
    submit it or delete it while it is a draft, and may add attachments while it
    is a draft or rejected. The owner's advising lecturer may verify or reject a
    submitted achievement. Nothing leaves verified or deleted, and nothing
    leads back from rejected to draft or submitted. */
module AchievementLifecycle {
  import opened Wrappers
  import opened Identifiers
  import opened Records

  datatype Action = Edit | Submit | Delete | Verify | Reject | Attach

  const Statuses: set<string> := {Draft, Submitted, Verified, Rejected, Deleted}

  /** The status an action leads to, or `None` when the status does not allow it. */
  function Next(status: string, a: Action): (next: Option<string>)
    ensures next.Some? ==> next.value in Statuses
    ensures (a == Edit || a == Attach) && next.Some? ==> next.value == status
    ensures a == Submit ==> (next.Some? <==> status == Draft)
    ensures a == Delete ==> (next.Some? <==> status == Draft)
    ensures a == Verify || a == Reject ==> (next.Some? <==> status == Submitted)
    ensures a == Edit ==> (next.Some? <==> status == Draft)
    ensures a == Attach ==> (next.Some? <==> status == Draft || status == Rejected)
  {
    match a
    case Edit => if status == Draft then Some(Draft) else None
    case Submit => if status == Draft then Some(Submitted) else None
    case Delete => if status == Draft then Some(Deleted) else None
    case Verify => if status == Submitted then Some(Verified) else None
    case Reject => if status == Submitted then Some(Rejected) else None
    case Attach => if status == Draft || status == Rejected then Some(status) else None
  }

  /** The status after a run of actions, `None` as soon as one is not allowed. */
  function Run(status: string, acts: seq<Action>): Option<string>
    decreases |acts|
  {
    if acts == [] then Some(status)
    else
      match Next(status, acts[0])
      case None => None
      case Some(s) => Run(s, acts[1..])
  }

  /** Verified and deleted are final. */
  lemma FinalStatuses(acts: seq<Action>)
    requires acts != []
    ensures Run(Verified, acts) == None
    ensures Run(Deleted, acts) == None
  {
  }

  /** A rejected achievement stays rejected: only attachments can follow. */
  lemma {:induction false} RejectedStaysRejected(acts: seq<Action>)
    requires Run(Rejected, acts).Some?
    ensures Run(Rejected, acts) == Some(Rejected)
    ensures forall i :: 0 <= i < |acts| ==> acts[i] == Attach
    decreases |acts|
  {
    if acts != [] {
      assert Next(Rejected, acts[0]) == Some(Rejected);
      RejectedStaysRejected(acts[1..]);
      assert forall i :: 1 <= i < |acts| ==> acts[i] == acts[1..][i - 1];
    }
  }

  /** A draft runs along edits and attachments and stays a draft. */
  lemma {:induction false} DraftKeepingRun(acts: seq<Action>)
    requires forall i :: 0 <= i < |acts| ==> acts[i] == Edit || acts[i] == Attach
    ensures Run(Draft, acts) == Some(Draft)
    decreases |acts|
  {
    if acts != [] {
      DraftKeepingRun(acts[1..]);
    }
  }

  /** The runs from a draft that are allowed and stay a draft are exactly the
      runs of edits and attachments. */
  lemma {:induction false} RunStaysDraft(acts: seq<Action>)
    ensures Run(Draft, acts) == Some(Draft) <==> forall i :: 0 <= i < |acts| ==> acts[i] == Edit || acts[i] == Attach
    decreases |acts|
  {
    if acts != [] {
      RunStaysDraft(acts[1..]);
      assert forall i :: 1 <= i < |acts| ==> acts[i] == acts[1..][i - 1];
      if acts[0] == Submit {
        assert Run(Draft, acts) == Run(Submitted, acts[1..]);
        SubmittedNeverReturnsToDraft(acts[1..]);
      } else if acts[0] == Delete {
        assert Run(Draft, acts) == Run(Deleted, acts[1..]);
      }
    }
  }

  lemma {:induction false} SubmittedNeverReturnsToDraft(acts: seq<Action>)
    ensures Run(Submitted, acts) != Some(Draft)
    decreases |acts|
  {
    if acts != [] {
      var n := Next(Submitted, acts[0]);
      if n == Some(Rejected) {
        if Run(Rejected, acts[1..]).Some? {
          RejectedStaysRejected(acts[1..]);
        }
      }
    }
  }

  /** A draft becomes verified exactly along edits and attachments, then one
      submission, then the verification. */
  lemma {:induction false} VerifiedOnlyThroughSubmission(acts: seq<Action>)
    ensures Run(Draft, acts) == Some(Verified) <==>
            (|acts| >= 2 && acts[|acts| - 2] == Submit && acts[|acts| - 1] == Verify &&
             forall i :: 0 <= i < |acts| - 2 ==> acts[i] == Edit || acts[i] == Attach)
    decreases |acts|
  {
    if acts != [] {
      var rest := acts[1..];
      assert forall i :: 1 <= i < |acts| ==> acts[i] == rest[i - 1];
      match acts[0]
      case Edit => VerifiedOnlyThroughSubmission(rest);
      case Attach => VerifiedOnlyThroughSubmission(rest);
      case Submit =>
        assert Run(Draft, acts) == Run(Submitted, rest);
        SubmittedToVerified(rest);
      case Delete =>
        assert Run(Draft, acts) == Run(Deleted, rest);
        if rest != [] {
          FinalStatuses(rest);
        }
      case Verify =>
      case Reject =>
    }
  }

  /** A submitted achievement becomes verified by exactly one verification. */
  lemma SubmittedToVerified(acts: seq<Action>)
    ensures Run(Submitted, acts) == Some(Verified) <==> acts == [Verify]
  {
    if acts != [] && acts[0] == Reject && Run(Rejected, acts[1..]).Some? {
      RejectedStaysRejected(acts[1..]);
    }
  }

  // ----- the guard chains -----

  const StudentNotFoundForUser: string := "student data not found for this user"
  const LecturerNotFoundForUser: string := "lecturer data not found for this user"
  const AchievementNotFound: string := "achievement not found"
  const NotOwner: string := "unauthorized: achievement does not belong to this student"
  const StudentDataNotFound: string := "student data not found"
  const RejectionNoteRequired: string := "rejection note is required"

  /** The checks in front of a student's own transition, in order: the caller's
      student record, the reference, ownership, then the status. */
  function OwnerGuard(studentAccounts: map<Uuid, Student>, references: map<Uuid, AchievementReference>,
                      userId: Uuid, id: Uuid, a: Action, statusError: string): (r: Result<AchievementReference>)
    ensures r.Ok? <==> userId in studentAccounts && id in references &&
                       references[id].studentId == studentAccounts[userId].id && Next(references[id].status, a).Some?
    ensures r.Ok? ==> r.value == references[id]
    ensures userId !in studentAccounts ==> r == Err(StudentNotFoundForUser)
    ensures userId in studentAccounts && id !in references ==> r == Err(AchievementNotFound)
    ensures userId in studentAccounts && id in references && references[id].studentId != studentAccounts[userId].id ==> r == Err(NotOwner)
    ensures (userId in studentAccounts && id in references && references[id].studentId == studentAccounts[userId].id &&
             Next(references[id].status, a).None?) ==> r == Err(statusError)
  {
    if userId !in studentAccounts then Err(StudentNotFoundForUser)
    else if id !in references then Err(AchievementNotFound)
    else if references[id].studentId != studentAccounts[userId].id then Err(NotOwner)
    else if Next(references[id].status, a).None? then Err(statusError)
    else Ok(references[id])
  }

  /** The checks in front of a lecturer's decision, in order: the caller's
      lecturer record, the reference, the status, the owning student, then
      advisorship. */
  function AdvisorGuard(lecturerAccounts: map<Uuid, Lecturer>, students: map<Uuid, Student>, references: map<Uuid, AchievementReference>,
                        userId: Uuid, id: Uuid, a: Action, statusError: string, advisorError: string): (r: Result<Lecturer>)
    ensures r.Ok? <==> userId in lecturerAccounts && id in references && Next(references[id].status, a).Some? &&
                       references[id].studentId in students &&
                       students[references[id].studentId].advisorId == lecturerAccounts[userId].id
    ensures r.Ok? ==> r.value == lecturerAccounts[userId]
    ensures userId !in lecturerAccounts ==> r == Err(LecturerNotFoundForUser)
    ensures userId in lecturerAccounts && id !in references ==> r == Err(AchievementNotFound)
    ensures userId in lecturerAccounts && id in references && Next(references[id].status, a).None? ==> r == Err(statusError)
    ensures (userId in lecturerAccounts && id in references && Next(references[id].status, a).Some? &&
             references[id].studentId !in students) ==> r == Err(StudentDataNotFound)
    ensures (userId in lecturerAccounts && id in references && Next(references[id].status, a).Some? &&
             references[id].studentId in students &&
             students[references[id].studentId].advisorId != lecturerAccounts[userId].id) ==> r == Err(advisorError)
  {
    if userId !in lecturerAccounts then Err(LecturerNotFoundForUser)
    else if id !in references then Err(AchievementNotFound)
    else if Next(references[id].status, a).None? then Err(statusError)
    else if references[id].studentId !in students then Err(StudentDataNotFound)
    else if students[references[id].studentId].advisorId != lecturerAccounts[userId].id then Err(advisorError)
    else Ok(lecturerAccounts[userId])
  }

  /** A rejection needs a note, checked before anything is looked up. */
  function RejectGuard(lecturerAccounts: map<Uuid, Lecturer>, students: map<Uuid, Student>, references: map<Uuid, AchievementReference>,
                       userId: Uuid, id: Uuid, note: string, statusError: string, advisorError: string): (r: Result<Lecturer>)
    ensures note == "" ==> r == Err(RejectionNoteRequired)
    ensures note != "" ==> r == AdvisorGuard(lecturerAccounts, students, references, userId, id, Reject, statusError, advisorError)
  {
    if note == "" then Err(RejectionNoteRequired)
    else AdvisorGuard(lecturerAccounts, students, references, userId, id, Reject, statusError, advisorError)
  }

  /** A lecturer guard never lets a non-advisor through, whatever the status. */
  lemma OnlyTheAdvisorDecides(lecturerAccounts: map<Uuid, Lecturer>, students: map<Uuid, Student>, references: map<Uuid, AchievementReference>,
                              userId: Uuid, id: Uuid, a: Action, statusError: string, advisorError: string)
    requires AdvisorGuard(lecturerAccounts, students, references, userId, id, a, statusError, advisorError).Ok?
    ensures (a == Verify || a == Reject) ==> references[id].status == Submitted
    ensures students[references[id].studentId].advisorId == lecturerAccounts[userId].id
  {
  }

  // ----- read access -----

  /** Reading one document: a caller with a student record must own it; any
      other caller must be a lecturer advising its owner. */
  predicate MayView(studentAccounts: map<Uuid, Student>, lecturerAccounts: map<Uuid, Lecturer>, students: map<Uuid, Student>,
                    userId: Uuid, owner: Uuid)
  {
    if userId in studentAccounts then studentAccounts[userId].id == owner
    else userId in lecturerAccounts && owner in students && students[owner].advisorId == lecturerAccounts[userId].id
  }

  /** Reading a status history: the owning student, or else the lecturer
      advising the owner; the lecturer check runs even for a caller with a
      student record that does not own the achievement. */
  predicate MayReadHistory(studentAccounts: map<Uuid, Student>, lecturerAccounts: map<Uuid, Lecturer>, students: map<Uuid, Student>,
                           userId: Uuid, owner: Uuid)
  {
    var isStudent := userId in studentAccounts && studentAccounts[userId].id == owner;
    var isAdvisor := !isStudent && userId in lecturerAccounts && owner in students && students[owner].advisorId == lecturerAccounts[userId].id;
    isStudent || isAdvisor
  }

  /** Whoever may view a document may read its history. */
  lemma ViewAllowsHistory(studentAccounts: map<Uuid, Student>, lecturerAccounts: map<Uuid, Lecturer>, students: map<Uuid, Student>,
                          userId: Uuid, owner: Uuid)
    requires MayView(studentAccounts, lecturerAccounts, students, userId, owner)
    ensures MayReadHistory(studentAccounts, lecturerAccounts, students, userId, owner)
  {
  }

  /** History access is exactly ownership or advisorship. */
  lemma HistoryIsOwnerOrAdvisor(studentAccounts: map<Uuid, Student>, lecturerAccounts: map<Uuid, Lecturer>, students: map<Uuid, Student>,
                                userId: Uuid, owner: Uuid)
    ensures MayReadHistory(studentAccounts, lecturerAccounts, students, userId, owner) <==>
            (userId in studentAccounts && studentAccounts[userId].id == owner) ||
            (userId in lecturerAccounts && owner in students && students[owner].advisorId == lecturerAccounts[userId].id)
  {
  }

  /** A caller with neither a student nor a lecturer record, an administrator
      included, may read neither. */
  lemma NoRecordNoAccess(studentAccounts: map<Uuid, Student>, lecturerAccounts: map<Uuid, Lecturer>, students: map<Uuid, Student>,
                         userId: Uuid, owner: Uuid)
    requires userId !in studentAccounts && userId !in lecturerAccounts
    ensures !MayView(studentAccounts, lecturerAccounts, students, userId, owner)
    ensures !MayReadHistory(studentAccounts, lecturerAccounts, students, userId, owner)
  {
  }

  /** A worked example, not a general property. The two rules differ: an
      account with both a student and a lecturer record may read the history
      of an advisee's achievement but not view the achievement itself. */
  lemma HistoryWiderThanView()
    ensures var account, other := Uuid(1), Uuid(2);
            var lecturer := Lecturer(Uuid(10), account, "L-1", "Informatics", 0);
            var caller := Student(Uuid(20), account, "S-20", "Informatics", "2024", Uuid(99), 0);
            var advisee := Student(Uuid(30), other, "S-30", "Informatics", "2024", Uuid(10), 0);
            MayReadHistory(map[account := caller], map[account := lecturer], map[Uuid(30) := advisee], account, Uuid(30)) &&
            !MayView(map[account := caller], map[account := lecturer], map[Uuid(30) := advisee], account, Uuid(30))
  {
  }
}
