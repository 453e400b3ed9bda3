/** The application shell (src/index.tsx): the viewer state cell, the session bootstrap that
    logs in once on mount, the session-storage token, the header every request carries, and
    the launch gate. */
module App {
  import opened Wrappers
  import Js

  /** The current session's identity; `didRequest` tells "still launching" from "signed out". */
  datatype Viewer = Viewer(
    id: Option<string>,
    token: Option<string>,
    avatar: Option<string>,
    hasWallet: Option<bool>,
    didRequest: bool)

  /** The viewer before the bootstrap login has answered. */
  function InitialViewer(): (v: Viewer)
    ensures v.id.None? && v.token.None? && v.avatar.None? && v.hasWallet.None? && !v.didRequest
  {
    Viewer(None, None, None, None, false)
  }

  /** Session storage, key by key. */
  type Storage = map<string, string>

  const TokenKey: string := "token"
  const CsrfHeader: string := "X-CSRF-TOKEN"

  /** The headers `authLink` gives every request: only the CSRF header, carrying the stored
      token, or the empty string when no token is stored. */
  function AuthHeaders(storage: Storage): (headers: map<string, string>)
    ensures headers.Keys == {CsrfHeader}
    ensures TokenKey in storage ==> headers[CsrfHeader] == storage[TokenKey]
    ensures TokenKey !in storage ==> headers[CsrfHeader] == ""
  {
    var stored := if TokenKey in storage then Some(storage[TokenKey]) else None;
    map[CsrfHeader := if stored.Some? && stored.value != "" then stored.value else ""]
  }

  /** The storage update of a completed login: a truthy token is stored, otherwise the entry is
      removed; no other key changes. */
  function StoreToken(storage: Storage, token: Option<string>): (s: Storage)
    ensures TokenKey in s <==> Js.TruthyString(token)
    ensures TokenKey in s ==> s[TokenKey] == token.value
    ensures forall k | k != TokenKey :: (k in s <==> k in storage) && (k in s ==> s[k] == storage[k])
  {
    if token.Some? && token.value != "" then storage[TokenKey := token.value] else storage - {TokenKey}
  }

  /** After a login, requests carry the new viewer's token, or "" when it has none. */
  lemma HeaderCarriesViewerToken(storage: Storage, viewer: Viewer)
    ensures AuthHeaders(StoreToken(storage, viewer.token))[CsrfHeader] == viewer.token.GetOr("")
  {
  }

  /** What the LOG_IN mutation's `onCompleted` receives. */
  datatype LogInData = LogInData(logIn: Option<Viewer>)

  /** The shell's render: the launch skeleton, or the routed layout with the login error
      banner on top when the bootstrap login failed. */
  datatype AppView =
    | LaunchSkeleton
    | AppLayout(errorBanner: Option<string>)

  const LogInErrorDescription: string :=
    "We weren't able to verify that you were logged in. Please try again later!"

  function View(viewer: Viewer, logInError: bool): (v: AppView)
    ensures v.LaunchSkeleton? <==> !viewer.didRequest && !logInError
    ensures v.AppLayout? ==> (v.errorBanner.Some? <==> logInError)
    ensures v.AppLayout? && v.errorBanner.Some? ==> v.errorBanner.value == LogInErrorDescription
  {
    if !viewer.didRequest && !logInError then LaunchSkeleton
    else AppLayout(if logInError then Some(LogInErrorDescription) else None)
  }

  /** The app launches behind the skeleton. */
  lemma LaunchShowsSkeleton()
    ensures View(InitialViewer(), false) == LaunchSkeleton
  {
  }

  /** The `App` component's state: the viewer cell, the browser's session storage, the
      mutation's error flag, the number of LOG_IN calls made, and whether the first commit
      (which runs the `[]` effect) has happened. */
  class AppShell {
    var viewer: Viewer
    var storage: Storage
    var logInError: bool
    var logInCalls: nat
    var mounted: bool

    ghost predicate Valid()
      reads this
    {
      logInCalls == if mounted then 1 else 0
    }

    /** First render, with whatever the session storage already holds. */
    constructor (storage: Storage)
      ensures Valid() && !mounted
      ensures viewer == InitialViewer() && this.storage == storage
      ensures !logInError && logInCalls == 0
    {
      viewer := InitialViewer();
      this.storage := storage;
      logInError := false;
      logInCalls := 0;
      mounted := false;
    }

    /** A commit of the component. The effect with no dependencies runs after the first commit
        only, and it calls LOG_IN. */
    method Commit()
      requires Valid()
      modifies this
      ensures Valid() && mounted && logInCalls == 1
      ensures viewer == old(viewer) && storage == old(storage) && logInError == old(logInError)
    {
      if !mounted {
        logInCalls := logInCalls + 1;
        mounted := true;
      }
    }

    /** `onCompleted` of LOG_IN: a returned viewer replaces the cell and sets or clears the
        stored token; a null `logIn` changes nothing. */
    method OnLogInCompleted(data: Option<LogInData>)
      modifies this
      ensures if data.Some? && data.value.logIn.Some?
              then viewer == data.value.logIn.value && storage == StoreToken(old(storage), viewer.token)
              else viewer == old(viewer) && storage == old(storage)
      ensures logInError == old(logInError) && logInCalls == old(logInCalls) && mounted == old(mounted)
    {
      if data.Some? && data.value.logIn.Some? {
        viewer := data.value.logIn.value;
        if viewer.token.Some? && viewer.token.value != "" {
          storage := storage[TokenKey := viewer.token.value];
        } else {
          storage := storage - {TokenKey};
        }
      }
    }

    /** The mutation failed: the hook reports an error. */
    method OnLogInError()
      modifies this
      ensures logInError
      ensures viewer == old(viewer) && storage == old(storage)
      ensures logInCalls == old(logInCalls) && mounted == old(mounted)
    {
      logInError := true;
    }
  }
}
