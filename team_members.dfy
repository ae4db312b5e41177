/** The team card of a workspace (frontend/src/pages/WorkSpaceDetail/TeamMembersCard.tsx):
 *  the owner edits a list of at most two member e-mails before saving it. */
module TeamMembers {
  import opened Common

  const MAX_MEMBERS := 2

  const INVALID_EMAIL := "Please enter a valid email."
  const ALREADY_ADDED := "Member already added."
  const LIMIT_REACHED := "Team limit reached (Max 2)."

  /** The list the card shows: no address twice and at most two of them. */
  predicate WithinLimit(emails: seq<string>)
  {
    NoDuplicates(emails) && |emails| <= MAX_MEMBERS
  }

  /** `handleAddEmail`'s refusal: none for an empty input (which is ignored silently), then
   *  in order an address without `@`, one already listed, a full list. */
  function AddError(emails: seq<string>, newEmail: string): (r: Option<string>)
    ensures r.None? <==> newEmail == [] || ('@' in newEmail && newEmail !in emails && |emails| < MAX_MEMBERS)
    ensures r == Some(INVALID_EMAIL) <==> newEmail != [] && '@' !in newEmail
    ensures r == Some(ALREADY_ADDED) <==> newEmail != [] && '@' in newEmail && newEmail in emails
  {
    if newEmail == [] then None
    else if '@' !in newEmail then Some(INVALID_EMAIL)
    else if newEmail in emails then Some(ALREADY_ADDED)
    else if |emails| >= MAX_MEMBERS then Some(LIMIT_REACHED)
    else None
  }

  /** Whether the input is appended. */
  predicate Accepted(emails: seq<string>, newEmail: string)
  {
    newEmail != [] && AddError(emails, newEmail).None?
  }

  /** Appending an accepted address keeps the list within the limit, and no sequence of adds
   *  can grow a list past two. */
  lemma AddKeepsLimit(emails: seq<string>, newEmail: string)
    requires WithinLimit(emails)
    ensures Accepted(emails, newEmail) ==> WithinLimit(emails + [newEmail])
    ensures |emails| == MAX_MEMBERS ==> !Accepted(emails, newEmail)
  {
  }

  /** `handleRemoveEmail`: every occurrence goes, the rest keep their order. */
  function Removed(emails: seq<string>, email: string): (r: seq<string>)
    ensures email !in r && |r| <= |emails|
    ensures forall x :: x in r <==> x in emails && x != email
  {
    Without(emails, email)
  }

  /** Removing keeps the order of what stays: it works piece by piece, and leaves a list
   *  without the address as it is. */
  lemma RemovedInOrder(a: seq<string>, b: seq<string>, email: string)
    ensures Removed(a + b, email) == Removed(a, email) + Removed(b, email)
    ensures email !in a ==> Removed(a, email) == a
  {
    WithoutAppend(a, b, email);
    if email !in a {
      WithoutNone(a, email);
    }
  }

  /** Removing keeps a list within the limit, and removing an address just added gives back
   *  the list as it was. */
  lemma {:induction false} RemoveUndoesAdd(emails: seq<string>, newEmail: string)
    requires newEmail !in emails
    ensures Removed(emails + [newEmail], newEmail) == emails
    ensures WithinLimit(emails) ==> WithinLimit(Removed(emails, newEmail))
    decreases |emails|
  {
    if emails != [] {
      RemoveUndoesAdd(emails[1..], newEmail);
      assert (emails + [newEmail])[1..] == emails[1..] + [newEmail];
      assert emails == [emails[0]] + emails[1..];
    }
    if WithinLimit(emails) {
      WithoutKeepsDistinct(emails, newEmail);
    }
  }

  lemma {:induction false} WithoutKeepsDistinct(s: seq<string>, x: string)
    requires NoDuplicates(s)
    ensures NoDuplicates(Without(s, x))
  {
    if s != [] {
      WithoutKeepsDistinct(s[1..], x);
      assert s[0] !in s[1..];
      assert s[0] !in Without(s[1..], x);
    }
  }

  /** The members' addresses of the workspace, or none when it has no member list. */
  function MemberEmails(teamMembers: Option<seq<string>>): seq<string>
  {
    teamMembers.GetOr([])
  }

  class TeamCard {
    var teamEmails: seq<string>
    var newEmail: string
    var isEditing: bool

    constructor (teamMembers: Option<seq<string>>)
      ensures teamEmails == MemberEmails(teamMembers) && newEmail == [] && !isEditing
    {
      teamEmails := MemberEmails(teamMembers);
      newEmail := [];
      isEditing := false;
    }

    /** The input's `onChange`. */
    method TypeEmail(text: string)
      modifies this
      ensures newEmail == text && teamEmails == old(teamEmails) && isEditing == old(isEditing)
    {
      newEmail := text;
    }

    /** `handleAddEmail`: an accepted address is appended and the input cleared; otherwise
     *  nothing changes. */
    method AddEmail() returns (error: Option<string>)
      modifies this
      ensures error == AddError(old(teamEmails), old(newEmail))
      ensures Accepted(old(teamEmails), old(newEmail)) ==>
        teamEmails == old(teamEmails) + [old(newEmail)] && newEmail == []
      ensures !Accepted(old(teamEmails), old(newEmail)) ==>
        teamEmails == old(teamEmails) && newEmail == old(newEmail)
      ensures isEditing == old(isEditing)
      ensures old(WithinLimit(teamEmails)) ==> WithinLimit(teamEmails)
    {
      error := None;
      if newEmail == [] {
        return;
      }
      if '@' !in newEmail {
        return Some(INVALID_EMAIL);
      }
      if newEmail in teamEmails {
        return Some(ALREADY_ADDED);
      }
      if |teamEmails| >= MAX_MEMBERS {
        return Some(LIMIT_REACHED);
      }
      teamEmails := teamEmails + [newEmail];
      newEmail := [];
    }

    method RemoveEmail(email: string)
      modifies this
      ensures teamEmails == Removed(old(teamEmails), email)
      ensures newEmail == old(newEmail) && isEditing == old(isEditing)
      ensures old(WithinLimit(teamEmails)) ==> WithinLimit(teamEmails)
    {
      if NoDuplicates(teamEmails) {
        WithoutKeepsDistinct(teamEmails, email);
      }
      teamEmails := Without(teamEmails, email);
    }

    /** `handleCancel`: the workspace's own list comes back and the input is emptied. */
    method Cancel(teamMembers: Option<seq<string>>)
      modifies this
      ensures teamEmails == MemberEmails(teamMembers) && newEmail == [] && !isEditing
    {
      teamEmails := MemberEmails(teamMembers);
      isEditing := false;
      newEmail := [];
    }

    /** `handleSave`: sends the list; the saved workspace's members replace it when the
     *  update succeeds (`saved` is then the reply's member list), and nothing changes when
     *  it fails. */
    method Save(saved: Option<Option<seq<string>>>) returns (payload: seq<string>)
      modifies this
      ensures payload == old(teamEmails)
      ensures saved.Some? ==> teamEmails == MemberEmails(saved.value) && !isEditing
      ensures saved.None? ==> teamEmails == old(teamEmails) && isEditing == old(isEditing)
      ensures newEmail == old(newEmail)
    {
      payload := teamEmails;
      if saved.Some? {
        teamEmails := MemberEmails(saved.value);
        isEditing := false;
      }
    }
  }
}
