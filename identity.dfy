/** The display name pages derive from the signed-in user's claims. */
module Identity {
  import opened Common
  import opened Auth
  import opened Text

  /** `user?.sub`, None when there is no user or no subject. */
  function Subject(user: Option<Claims>): Option<string>
  {
    if user.Some? then user.value.sub else None
  }

  /** `user?.sub ? user.sub.split('@')[0] : 'User'`. */
  function UserName(user: Option<Claims>): (r: string)
    ensures !Truthy(Subject(user)) ==> r == "User"
    ensures Truthy(Subject(user)) ==> r <= Subject(user).value && '@' !in r
    ensures Truthy(Subject(user)) && '@' in Subject(user).value ==>
              Subject(user).value[..|r| + 1] == r + "@"
    ensures Truthy(Subject(user)) && '@' !in Subject(user).value ==> r == Subject(user).value
  {
    var sub := Subject(user);
    if Truthy(sub) then BeforeFirst(sub.value, '@') else "User"
  }

  /** The name of `alice@example.com` is `alice`. */
  lemma UserNameOfAddress(exp: Option<int>)
    ensures UserName(Some(Claims(Some("alice@example.com"), exp))) == "alice"
  {
    var sub := "alice@example.com";
    assert sub[..5] == "alice" && sub[5] == '@';
    BeforeFirstIsPrefixUpTo(sub, '@', 5);
  }

  /** When `s[k]` is the first `c` in `s`, the part before it is `s[..k]`. */
  lemma BeforeFirstIsPrefixUpTo(s: string, c: char, k: nat)
    requires k < |s| && s[k] == c && c !in s[..k]
    ensures BeforeFirst(s, c) == s[..k]
  {
  }
}
