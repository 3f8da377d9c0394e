// The record store and the four operations over it as objects: what each does when its turn
// in the chain has come.
module Signal {
  import opened Options
  import opened SessionProofs
  import opened SessionRatchet
  import opened Sessions

  class Store {
    var kv: Kv

    constructor (kv: Kv)
      ensures this.kv == kv
    {
      this.kv := kv;
    }

    method StoreSession(h: Handle, record: Record)
      modifies this
      ensures kv == old(kv)[SessionKey(h) := record]
    {
      kv := kv[SessionKey(h) := record];
    }

    method LoadSession(h: Handle) returns (record: Option<Record>)
      ensures record == PeerAt(kv, h).session
    {
      record := if SessionKey(h) in kv then Some(kv[SessionKey(h)]) else None;
    }

    method RemoveSession(h: Handle)
      modifies this
      ensures kv == old(kv) - {SessionKey(h)}
    {
      kv := kv - {SessionKey(h)};
    }

    method PinIdentity(h: Handle, identity: Identity)
      modifies this
      ensures kv == old(kv)[IdentityKey(h) := identity]
    {
      kv := kv[IdentityKey(h) := identity];
    }

    method GetPinnedIdentity(h: Handle) returns (identity: Option<Identity>)
      ensures identity == PeerAt(kv, h).pin
    {
      identity := if IdentityKey(h) in kv then Some(kv[IdentityKey(h)]) else None;
    }

    method RemoveIdentity(h: Handle)
      modifies this
      ensures kv == old(kv) - {IdentityKey(h)}
    {
      kv := kv - {IdentityKey(h)};
    }
  }

  // Only the two records of h may differ.
  ghost predicate OnlyTouches(before: Kv, after: Kv, h: Handle) {
    && LocalAt(after) == LocalAt(before)
    && forall g :: g != h ==> PeerAt(after, g) == PeerAt(before, g)
  }

  lemma WritesTouchOnly(kv: Kv, h: Handle, record: Record, identity: Identity)
    ensures OnlyTouches(kv, kv[SessionKey(h) := record], h)
    ensures OnlyTouches(kv, kv[SessionKey(h) := record][IdentityKey(h) := identity], h)
    ensures OnlyTouches(kv, kv - {SessionKey(h)} - {IdentityKey(h)}, h)
  {
    KeysAreApart(h, h);
    forall g | g != h
      ensures PeerAt(kv[SessionKey(h) := record], g) == PeerAt(kv, g)
      ensures PeerAt(kv[SessionKey(h) := record][IdentityKey(h) := identity], g) == PeerAt(kv, g)
      ensures PeerAt(kv - {SessionKey(h)} - {IdentityKey(h)}, g) == PeerAt(kv, g)
    {
      KeysAreApart(h, g);
      KeysAreApart(g, h);
    }
  }

  class NucoSignal {
    const store: Store
    const backend: Backend

    constructor (store: Store, backend: Backend)
      ensures this.store == store && this.backend == backend
    {
      this.store, this.backend := store, backend;
    }

    method HasSession(h: Handle) returns (found: bool)
      ensures found <==> PeerAt(store.kv, h).session.Some?
    {
      var session := store.LoadSession(h);
      found := session.Some?;
    }

    method DeleteSession(h: Handle) returns (r: Outcome)
      modifies store
      ensures (PeerAt(store.kv, h), r) ==
        Apply(backend, LocalAt(old(store.kv)), PeerAt(old(store.kv), h), Op.DeleteSession)
      ensures Does(backend, LocalAt(old(store.kv)), PeerAt(old(store.kv), h), Op.DeleteSession,
                   PeerAt(store.kv, h), r)
      ensures OnlyTouches(old(store.kv), store.kv, h)
    {
      KeysAreApart(h, h);
      WritesTouchOnly(store.kv, h, "", "");
      store.RemoveSession(h);
      store.RemoveIdentity(h);
      r := Ok(Nothing);
    }

    method StartSession(h: Handle, bundle: Bundle) returns (r: Outcome)
      modifies store
      ensures (PeerAt(store.kv, h), r) ==
        Apply(backend, LocalAt(old(store.kv)), PeerAt(old(store.kv), h), Op.StartSession(bundle))
      ensures Does(backend, LocalAt(old(store.kv)), PeerAt(old(store.kv), h), Op.StartSession(bundle),
                   PeerAt(store.kv, h), r)
      ensures OnlyTouches(old(store.kv), store.kv, h)
    {
      KeysAreApart(h, h);
      if !LocalAt(store.kv).provisioned {
        return Err(NotProvisioned);
      }
      var existing := store.LoadSession(h);
      var result := (backend.processPreKeyBundle)(existing, bundle);
      if result.Err? {
        return Err(result.error);
      }
      WritesTouchOnly(store.kv, h, result.value, bundle.identityKey);
      store.StoreSession(h, result.value);
      store.PinIdentity(h, bundle.identityKey);
      r := Ok(Nothing);
    }

    method Encrypt(h: Handle, plaintext: Bytes) returns (r: Outcome)
      modifies store
      ensures (PeerAt(store.kv, h), r) ==
        Apply(backend, LocalAt(old(store.kv)), PeerAt(old(store.kv), h), Op.Encrypt(plaintext))
      ensures Does(backend, LocalAt(old(store.kv)), PeerAt(old(store.kv), h), Op.Encrypt(plaintext),
                   PeerAt(store.kv, h), r)
      ensures OnlyTouches(old(store.kv), store.kv, h)
    {
      KeysAreApart(h, h);
      if !LocalAt(store.kv).provisioned {
        return Err(NotProvisioned);
      }
      var session := store.LoadSession(h);
      if session.None? {
        return Err(NoSession);
      }
      var result := (backend.encrypt)(session.value, plaintext);
      if result.Err? {
        return Err(result.error);
      }
      WritesTouchOnly(store.kv, h, result.value.0, "");
      store.StoreSession(h, result.value.0);
      r := Ok(Sealed(result.value.1));
    }

    method DecryptPreKey(h: Handle, cipher: Cipher) returns (r: Outcome)
      modifies store
      ensures (PeerAt(store.kv, h), r) ==
        Apply(backend, LocalAt(old(store.kv)), PeerAt(old(store.kv), h), Op.DecryptPreKey(cipher))
      ensures Does(backend, LocalAt(old(store.kv)), PeerAt(old(store.kv), h), Op.DecryptPreKey(cipher),
                   PeerAt(store.kv, h), r)
      ensures OnlyTouches(old(store.kv), store.kv, h)
    {
      KeysAreApart(h, h);
      if !LocalAt(store.kv).provisioned {
        return Err(NotProvisioned);
      }
      var pinned := store.GetPinnedIdentity(h);
      var existing := store.LoadSession(h);
      if !LocalAt(store.kv).prekeys {
        return Err(NoPreKeys);
      }
      var result := (backend.decryptPreKey)(existing, cipher);
      if result.Err? {
        return Err(result.error);
      }
      var (record, identity, padded) := result.value;
      if pinned.Some? && identity != pinned.value {
        return Err(IdentityChanged(identity));
      }
      WritesTouchOnly(store.kv, h, record, identity);
      store.StoreSession(h, record);
      if pinned.None? {
        store.PinIdentity(h, identity);
      }
      r := Unpadded(backend, padded);
    }

    method DecryptWhisper(h: Handle, cipher: Cipher) returns (r: Outcome)
      modifies store
      ensures (PeerAt(store.kv, h), r) ==
        Apply(backend, LocalAt(old(store.kv)), PeerAt(old(store.kv), h), Op.DecryptWhisper(cipher))
      ensures Does(backend, LocalAt(old(store.kv)), PeerAt(old(store.kv), h), Op.DecryptWhisper(cipher),
                   PeerAt(store.kv, h), r)
      ensures OnlyTouches(old(store.kv), store.kv, h)
    {
      KeysAreApart(h, h);
      if !LocalAt(store.kv).provisioned {
        return Err(NotProvisioned);
      }
      var session := store.LoadSession(h);
      if session.None? {
        return Err(NoSession);
      }
      var result := (backend.decryptWhisper)(session.value, cipher);
      if result.Err? {
        return Err(result.error);
      }
      WritesTouchOnly(store.kv, h, result.value.0, "");
      store.StoreSession(h, result.value.0);
      r := Unpadded(backend, result.value.1);
    }
  }
}
