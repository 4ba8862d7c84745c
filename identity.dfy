/** The participant as the mini-app host's context describes them, and the two
    labels the wallet menu and the profile page derive from it and from the
    wallet address. */
module Identity {
  import opened Common

  /** The `user` of the host context. The avatar URL only feeds an image
      and is not kept. */
  datatype Profile = Profile(displayName: Option<string>, username: Option<string>)

  /** How `await sdk.actions.ready()` followed by reading `sdk.context` ends:
      it returns a context whose `user` may be missing, or it throws. */
  datatype Handshake = Resolved(contextUser: Option<Profile>) | Threw

  /** `user?.displayName || user?.username || "User"` */
  function DisplayName(user: Option<Profile>): (r: string)
    ensures r != ""
    ensures user.Some? && Truthy(user.value.displayName) ==> r == user.value.displayName.value
    ensures (user.Some? && !Truthy(user.value.displayName) && Truthy(user.value.username))
            ==> r == user.value.username.value
    ensures (user.None? || (!Truthy(user.value.displayName) && !Truthy(user.value.username)))
            ==> r == "User"
  {
    match user
    case None => "User"
    case Some(u) => OrElse(u.displayName, OrElse(u.username, "User"))
  }

  function Min(a: int, b: int): int {
    if a <= b then a else b
  }

  /** `address ? `${address.slice(0, 6)}...${address.slice(-4)}` : ""`.
      `slice(-4)` of a string shorter than 4 is the whole string. */
  function ShortAddress(address: Option<string>): (r: string)
    ensures !Truthy(address) <==> r == ""
    ensures Truthy(address) ==>
              var a := address.value;
              && |r| == Min(6, |a|) + 3 + Min(4, |a|)
              && r[..Min(6, |a|)] == a[..Min(6, |a|)]
              && r[Min(6, |a|)..Min(6, |a|) + 3] == "..."
              && r[|r| - Min(4, |a|)..] == a[|a| - Min(4, |a|)..]
  {
    if !Truthy(address) then ""
    else
      var a := address.value;
      a[..Min(6, |a|)] + "..." + a[|a| - Min(4, |a|)..]
  }

  /** For a full 42-character account address the label is 13 characters
      long: the `0x` prefix with four hex digits, an ellipsis, and the last
      four hex digits. */
  lemma ShortAddressOfAccount(a: string)
    requires |a| == 42
    ensures var r := ShortAddress(Some(a));
            |r| == 13 && r == a[..6] + "..." + a[38..]
  {
    var r := ShortAddress(Some(a));
    assert r[..6] == a[..6] && r[6..9] == "..." && r[9..] == a[38..];
    assert r == r[..6] + r[6..9] + r[9..];
  }
}
