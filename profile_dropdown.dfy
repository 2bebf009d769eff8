/** The profile menu: the name, e-mail and avatar letter shown for the user,
    the open/closed state of the menu and the theme item's label. */
module ProfileDropdown {
  import opened Common
  import opened Text
  import opened Auth
  import opened Identity

  /** `user?.sub || ''`. */
  function UserEmail(user: Option<Claims>): (r: string)
    ensures Truthy(Subject(user)) ==> r == Subject(user).value
    ensures !Truthy(Subject(user)) ==> r == ""
  {
    if Truthy(Subject(user)) then Subject(user).value else ""
  }

  /** `userName.charAt(0).toUpperCase()`: empty when the name is empty. */
  function Avatar(userName: string): (r: string)
    ensures |userName| == 0 ==> r == ""
    ensures |userName| > 0 ==> r == [UpperChar(userName[0])]
  {
    if |userName| == 0 then "" else [UpperChar(userName[0])]
  }

  /** The avatar is one letter for a signed-out or subject-less user ("U"),
      and for any subject that does not start with '@'; a subject starting
      with '@' has an empty name and an empty avatar. */
  lemma AvatarOfUser(user: Option<Claims>)
    ensures !Truthy(Subject(user)) ==> Avatar(UserName(user)) == "U"
    ensures Truthy(Subject(user)) ==>
              (|Avatar(UserName(user))| == 1 <==> Subject(user).value[0] != '@')
  {
    if Truthy(Subject(user)) {
      var sub := Subject(user).value;
      if sub[0] == '@' {
        assert BeforeFirst(sub, '@') == [];
      } else {
        assert BeforeFirst(sub, '@') == [sub[0]] + BeforeFirst(sub[1..], '@');
      }
    }
  }

  /** The menu item offers the other theme: 'Dark Mode' in the light theme,
      'Light Mode' for every other theme value. */
  function ThemeLabel(theme: string): (r: string)
    ensures theme == "light" <==> r == "Dark Mode"
    ensures r == "Dark Mode" || r == "Light Mode"
  {
    if theme == "light" then "Dark Mode" else "Light Mode"
  }

  class Dropdown {
    var isOpen: bool

    constructor ()
      ensures !isOpen
    {
      isOpen := false;
    }

    /** The profile button's click: `setIsOpen(!isOpen)`. */
    method Toggle()
      modifies this
      ensures isOpen == !old(isOpen)
    {
      isOpen := !isOpen;
    }

    /** The document's mousedown listener: a press outside the container
        closes the menu, a press inside leaves it as it is. */
    method MouseDown(insideContainer: bool)
      modifies this
      ensures isOpen == (old(isOpen) && insideContainer)
    {
      if !insideContainer {
        isOpen := false;
      }
    }
  }

  /** Clicking the button (a mousedown inside, then the click) twice brings
      the menu back to where it was; a press outside then always leaves it closed. */
  method ClickTwiceThenOutside(d: Dropdown) returns (openAfterTwoClicks: bool)
    modifies d
    ensures openAfterTwoClicks == old(d.isOpen)
    ensures !d.isOpen
  {
    d.MouseDown(true);
    d.Toggle();
    d.MouseDown(true);
    d.Toggle();
    openAfterTwoClicks := d.isOpen;
    d.MouseDown(false);
  }
}
