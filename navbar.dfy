/** The navigation bar's `handleLogout`: remove both credential keys, then go
    to "/login". */
module Navbar {
  import opened Browser

  function LogoutRun(): seq<Effect>
  {
    [RemoveItem(TokenKey), RemoveItem(TokenTypeKey), Navigate("/login")]
  }

  method HandleLogout(tab: Tab)
    requires tab.Valid()
    modifies tab
    ensures tab.Valid() && tab.initial == old(tab.initial)
    ensures tab.log == old(tab.log) + LogoutRun()
    ensures Snapshot(tab.storage, tab.route) == Replay(old(Snapshot(tab.storage, tab.route)), LogoutRun())
  {
    tab.Perform(RemoveItem(TokenKey));
    tab.Perform(RemoveItem(TokenTypeKey));
    tab.Perform(Navigate("/login"));
    ReplayAppend(tab.initial, old(tab.log), LogoutRun());
  }

  /** Whatever the prior state, logout leaves neither credential key, every
      other key as it was, and the route at "/login"; the guards then see no
      session. */
  lemma {:induction false} LogoutClearsCredential(w: Snapshot)
    ensures Replay(w, LogoutRun()) == Snapshot(w.storage - {TokenKey, TokenTypeKey}, "/login")
    ensures !HasToken(Replay(w, LogoutRun()).storage) && Paired(Replay(w, LogoutRun()).storage)
  {
    var w1 := w.(storage := w.storage - {TokenKey});
    var w2 := w1.(storage := w1.storage - {TokenTypeKey});
    ReplayCons(w, RemoveItem(TokenKey), [RemoveItem(TokenTypeKey)] + [Navigate("/login")]);
    ReplayCons(w1, RemoveItem(TokenTypeKey), [Navigate("/login")]);
    ReplayCons(w2, Navigate("/login"), []);
    assert w2.storage == w.storage - {TokenKey, TokenTypeKey};
  }

  /** Logging out twice leaves the same state as logging out once. */
  lemma LogoutIdempotent(w: Snapshot)
    ensures Replay(Replay(w, LogoutRun()), LogoutRun()) == Replay(w, LogoutRun())
  {
    LogoutClearsCredential(w);
    LogoutClearsCredential(Replay(w, LogoutRun()));
    assert w.storage - {TokenKey, TokenTypeKey} - {TokenKey, TokenTypeKey} == w.storage - {TokenKey, TokenTypeKey};
  }

  /** Logout makes no request, shows no alert and does not touch a loading flag. */
  lemma {:induction false} LogoutIsLocal()
    ensures Requests(LogoutRun()) == []
    ensures forall i :: 0 <= i < |LogoutRun()| ==> !LogoutRun()[i].Send? && !LogoutRun()[i].Alert? && !LogoutRun()[i].Loading?
  {
    RequestsCons(RemoveItem(TokenKey), [RemoveItem(TokenTypeKey)] + [Navigate("/login")]);
    RequestsCons(RemoveItem(TokenTypeKey), [Navigate("/login")]);
    RequestsCons(Navigate("/login"), []);
  }
}
