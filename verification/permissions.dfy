/** The permission-request handler installed on the persistent session. */
module Permissions {

  /** The permissions the handler grants. */
  const AllowedPermissions: seq<string> := ["notifications", "clipboard-read", "clipboard-write", "media"]

  /** `xs.includes(x)` of JavaScript arrays. */
  function Includes(xs: seq<string>, x: string): (r: bool)
    ensures r <==> exists i :: 0 <= i < |xs| && xs[i] == x
  {
    if xs == [] then false
    else if xs[0] == x then true
    else
      var rest := Includes(xs[1..], x);
      assert forall i :: 1 <= i < |xs| ==> xs[i] == xs[1..][i - 1];
      rest
  }

  /** The handler calls its callback exactly once; the result is the list
      of arguments the callback received. */
  function OnPermissionRequest(permission: string): (callbackArgs: seq<bool>)
    ensures |callbackArgs| == 1
    ensures callbackArgs[0] <==>
              permission == "notifications" || permission == "clipboard-read"
              || permission == "clipboard-write" || permission == "media"
  {
    if Includes(AllowedPermissions, permission) then [true] else [false]
  }

  /** Comparison is exact: a permission name in a different case, or any
      other name, is refused. */
  lemma OtherPermissionsRefused()
    ensures OnPermissionRequest("Notifications") == [false]
    ensures OnPermissionRequest("geolocation") == [false]
    ensures OnPermissionRequest("") == [false]
  {
  }
}
