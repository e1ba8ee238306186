/**
 * The settings page: the team-member list with its add, remove and role
 * handlers, and the light/dark theme switch.
 */
module SettingsPage {
  import opened Base
  import opened Lists

  datatype Role = Admin | Editor | Viewer

  datatype TeamMember = TeamMember(id: string, name: string, email: string, role: Role, avatar: string)

  /** The add-member dialog's form. */
  datatype MemberForm = MemberForm(name: string, email: string, role: Role)

  datatype Theme = Light | Dark

  const AvatarPlaceholder: string := "/placeholder.svg?height=40&width=40"

  /** The form as the page opens it and as a successful add leaves it. */
  const BlankForm: MemberForm := MemberForm("", "", Editor)

  /** The three members the page starts with. */
  function InitialMembers(): seq<TeamMember> {
    [TeamMember("1", "Sarah Johnson", "sarah@example.com", Admin, AvatarPlaceholder),
     TeamMember("2", "Michael Chen", "michael@example.com", Editor, AvatarPlaceholder),
     TeamMember("3", "Emma Williams", "emma@example.com", Viewer, AvatarPlaceholder)]
  }

  /** `teamMembers.filter(m => m.id !== id)`. */
  function RemoveMember(members: seq<TeamMember>, id: string): (r: seq<TeamMember>)
    ensures forall i :: 0 <= i < |r| ==> r[i].id != id
    ensures IsSubsequence(r, members)
    ensures forall m :: multiset(r)[m] == if m.id != id then multiset(members)[m] else 0
  {
    FilterIsSubsequence(members, (m: TeamMember) => m.id != id);
    forall m ensures multiset(Filter(members, (m: TeamMember) => m.id != id))[m] == if m.id != id then multiset(members)[m] else 0 {
      FilterCount(members, (m: TeamMember) => m.id != id, m);
    }
    Filter(members, (m: TeamMember) => m.id != id)
  }

  /** `teamMembers.map(m => m.id === id ? { ...m, role } : m)`: only the role of matching members changes. */
  function UpdateRole(members: seq<TeamMember>, id: string, role: Role): (r: seq<TeamMember>)
    ensures |r| == |members|
    ensures forall i :: 0 <= i < |r| ==>
      r[i].id == members[i].id && r[i].name == members[i].name &&
      r[i].email == members[i].email && r[i].avatar == members[i].avatar
    ensures forall i :: 0 <= i < |r| ==> r[i].role == if members[i].id == id then role else members[i].role
  {
    seq(|members|, i requires 0 <= i < |members| => if members[i].id == id then members[i].(role := role) else members[i])
  }

  /** Removing a member leaves no one whose role could still be changed: a role update after it changes nothing. */
  lemma {:induction false} UpdateAfterRemove(members: seq<TeamMember>, id: string, role: Role)
    ensures UpdateRole(RemoveMember(members, id), id, role) == RemoveMember(members, id)
  {
    var r := RemoveMember(members, id);
    assert forall i :: 0 <= i < |r| ==> r[i].id != id;
  }

  /** Setting a role twice is the same as setting it once, and a later role wins. */
  lemma UpdateRoleTwice(members: seq<TeamMember>, id: string, first: Role, second: Role)
    ensures UpdateRole(UpdateRole(members, id, first), id, second) == UpdateRole(members, id, second)
  {
  }

  /** The page's state. `theme` is the theme provider's current theme. */
  class Settings {
    var teamMembers: seq<TeamMember>
    var isAddMemberOpen: bool
    var newMember: MemberForm
    var theme: Theme

    constructor (theme: Theme)
      ensures teamMembers == InitialMembers() && !isAddMemberOpen && newMember == BlankForm
      ensures this.theme == theme
    {
      teamMembers := InitialMembers();
      isAddMemberOpen := false;
      newMember := BlankForm;
      this.theme := theme;
    }

    /** The switch shows checked exactly in dark mode. */
    predicate SwitchChecked()
      reads this
    {
      theme == Dark
    }

    /** `handleThemeToggle`: the switch's checked state picks dark, unchecked light, and the switch then shows that state. */
    method ThemeToggle(checked: bool)
      modifies this
      ensures theme == if checked then Dark else Light
      ensures SwitchChecked() == checked
      ensures teamMembers == old(teamMembers) && newMember == old(newMember) && isAddMemberOpen == old(isAddMemberOpen)
    {
      theme := if checked then Dark else Light;
    }

    /**
     * `handleAddMember`: with a name and an email in the form, appends one
     * member with the form's fields and the placeholder avatar
     * (`freshId` stands for `Date.now().toString()`), resets the form and
     * closes the dialog; otherwise nothing changes.
     */
    method AddMember(freshId: string)
      modifies this
      ensures theme == old(theme)
      ensures old(newMember.name) == "" || old(newMember.email) == "" ==>
        teamMembers == old(teamMembers) && newMember == old(newMember) && isAddMemberOpen == old(isAddMemberOpen)
      ensures old(newMember.name) != "" && old(newMember.email) != "" ==>
        teamMembers == old(teamMembers) +
          [TeamMember(freshId, old(newMember.name), old(newMember.email), old(newMember.role), AvatarPlaceholder)] &&
        newMember == BlankForm && !isAddMemberOpen
    {
      if newMember.name != "" && newMember.email != "" {
        var member := TeamMember(freshId, newMember.name, newMember.email, newMember.role, AvatarPlaceholder);
        teamMembers := teamMembers + [member];
        newMember := BlankForm;
        isAddMemberOpen := false;
      }
    }

    /** `handleRemoveMember`. */
    method RemoveMemberById(id: string)
      modifies this
      ensures teamMembers == RemoveMember(old(teamMembers), id)
      ensures newMember == old(newMember) && isAddMemberOpen == old(isAddMemberOpen) && theme == old(theme)
    {
      teamMembers := RemoveMember(teamMembers, id);
    }

    /** `handleUpdateRole`. */
    method UpdateRoleById(id: string, role: Role)
      modifies this
      ensures teamMembers == UpdateRole(old(teamMembers), id, role)
      ensures newMember == old(newMember) && isAddMemberOpen == old(isAddMemberOpen) && theme == old(theme)
    {
      teamMembers := UpdateRole(teamMembers, id, role);
    }
  }

  /**
   * No control of the page edits the add-member form, so from the page's
   * opening state adding a member changes nothing.
   */
  method AddFromOpeningState(theme: Theme) returns (members: seq<TeamMember>)
    ensures members == InitialMembers()
  {
    var page := new Settings(theme);
    page.AddMember("0");
    members := page.teamMembers;
  }
}
