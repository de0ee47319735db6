/** Secrets at rest: one data key in a key file that can be torn by a crash, and secret files
    that are replaced atomically. Every operation may crash at any write. */
module SecretStore {
  import opened Wrappers
  import opened Bytes
  import opened Strings
  import Base64

  const DEK_BYTES := 32
  const SLOT_NODE_KEY := "node.key"
  const NODE_KEY_PATH := "node.key"

  /** Ciphertext that opens under one key and one slot name, to one text. */
  datatype Envelope = Envelope(key: bytes, slot: string, text: string)

  /** A secret file: an envelope, or text from before there were envelopes. */
  datatype Content = Sealed(envelope: Envelope) | Legacy(text: string)

  /** Where the data key lives: given by the operator, or in the key file. */
  datatype Adapter = EnvKey(raw: string) | KeyFile

  /** The disk, and the one thing a process keeps: the cached key. */
  datatype Machine = Machine(
    adapter: Adapter,
    keyFile: Option<string>,
    files: map<string, Content>,
    publicKey: Option<string>,
    cached: Option<bytes>)

  /** What goes wrong during an operation: the process dies after the first `n` characters of
      the key file, or around the rename, or before the public key; or a read fails. */
  datatype Fate =
    | Survive | TornKeyWrite(n: nat) | BeforeRename | AfterRename | BeforePublicKey | KeyUnreadable | FileUnreadable

  datatype StoreError = BadEnvKey | Unreadable | MalformedKey | NotRetained | CannotOpen

  datatype Outcome<T> = Done(value: T) | Threw(error: StoreError) | Crashed

  function Restart(m: Machine): Machine { m.(cached := None) }

  /** The key that a text stands for, if it has the right length. */
  function ParseKey(text: string): Option<bytes> {
    var key := Base64.Decode(Trim(text));
    if |key| != DEK_BYTES then None else Some(key)
  }

  function GetOrCreateKey(m: Machine, minted: bytes, fate: Fate): (Machine, Outcome<bytes>) {
    if m.cached.Some? then (m, Done(m.cached.value))
    else
      match m.adapter
      case EnvKey(raw) =>
        var key := Base64.Decode(raw);
        if |key| != DEK_BYTES then (m, Threw(BadEnvKey)) else (m.(cached := Some(key)), Done(key))
      case KeyFile =>
        if fate == KeyUnreadable && m.keyFile.Some? then (m, Threw(Unreadable))
        else
          match m.keyFile
          case Some(text) =>
            (match ParseKey(text)
             case None => (m, Threw(MalformedKey))
             case Some(key) => (m.(cached := Some(key)), Done(key)))
          case None => MintKey(m, minted, fate)
  }

  /** Write the key file, and trust it only once it has been read back. */
  function MintKey(m: Machine, minted: bytes, fate: Fate): (Machine, Outcome<bytes>) {
    var text := Base64.Encode(minted);
    if fate.TornKeyWrite? then (Restart(m.(keyFile := Some(if fate.n < |text| then text[..fate.n] else text))), Crashed)
    else
      var written := m.(keyFile := Some(text));
      match ParseKey(text)
      case None => (written, Threw(MalformedKey))
      case Some(stored) =>
        if stored != minted then (written, Threw(NotRetained)) else (written.(cached := Some(minted)), Done(minted))
  }

  function WriteSecret(
      m: Machine, slot: string, path: string, text: string, minted: bytes, fate: Fate)
    : (Machine, Outcome<()>)
  {
    match GetOrCreateKey(m, minted, fate)
    case (m', Crashed) => (m', Crashed)
    case (m', Threw(x)) => (m', Threw(x))
    case (m', Done(key)) =>
      if fate == BeforeRename then (Restart(m'), Crashed)
      else
        var renamed := m'.(files := m'.files[path := Sealed(Envelope(key, slot, text))]);
        if fate == AfterRename then (Restart(renamed), Crashed) else (renamed, Done(()))
  }

  function Open(e: Envelope, key: bytes, slot: string): Option<string> {
    if e.key == key && e.slot == slot then Some(e.text) else None
  }

  /** `None` only when the file is absent. A legacy file is sealed in place first. */
  function ReadSecret(
      m: Machine, slot: string, path: string, minted: bytes, fate: Fate)
    : (Machine, Outcome<Option<string>>)
  {
    if path !in m.files then (m, Done(None))
    else if fate == FileUnreadable then (m, Threw(Unreadable))
    else
      match m.files[path]
      case Sealed(e) =>
        (match GetOrCreateKey(m, minted, fate)
         case (m', Crashed) => (m', Crashed)
         case (m', Threw(x)) => (m', Threw(x))
         case (m', Done(key)) =>
           match Open(e, key, slot)
           case None => (m', Threw(CannotOpen))
           case Some(text) => (m', Done(Some(text))))
      case Legacy(text) =>
        match WriteSecret(m, slot, path, text, minted, fate)
        case (m', Crashed) => (m', Crashed)
        case (m', Threw(x)) => (m', Threw(x))
        case (m', Done(_)) => (m', Done(Some(text)))
  }

  datatype Identity = Identity(privateKey: string, publicKey: string)

  /** Generate a pair and store it: the private key first. */
  function NewIdentity(m: Machine, pair: Identity, minted: bytes, fate: Fate): (Machine, Outcome<Identity>) {
    match WriteSecret(m, SLOT_NODE_KEY, NODE_KEY_PATH, pair.privateKey, minted, fate)
    case (m', Crashed) => (m', Crashed)
    case (m', Threw(x)) => (m', Threw(x))
    case (m', Done(_)) =>
      if fate == BeforePublicKey then (Restart(m'), Crashed)
      else (m'.(publicKey := Some(pair.publicKey)), Done(pair))
  }

  /** `pair` is what the key generator would return. An empty private key reads as none. */
  function LoadOrCreateIdentity(m: Machine, pair: Identity, minted: bytes, fate: Fate): (Machine, Outcome<Identity>) {
    if NODE_KEY_PATH in m.files && m.publicKey.Some? then
      var (m', read) := ReadSecret(m, SLOT_NODE_KEY, NODE_KEY_PATH, minted, fate);
      LoadedOrNew(m', read, m.publicKey.value, pair, minted, fate)
    else NewIdentity(m, pair, minted, fate)
  }

  function LoadedOrNew(
      m: Machine, read: Outcome<Option<string>>, publicKey: string, pair: Identity, minted: bytes, fate: Fate)
    : (Machine, Outcome<Identity>)
  {
    match read
    case Crashed => (m, Crashed)
    case Threw(x) => (m, Threw(x))
    case Done(text) =>
      if text.Some? && text.value != "" then (m, Done(Identity(text.value, publicKey)))
      else NewIdentity(m, pair, minted, fate)
  }

  lemma KeyKeepsPublicKey(m: Machine, minted: bytes, fate: Fate)
    ensures GetOrCreateKey(m, minted, fate).0.publicKey == m.publicKey
  {
  }

  lemma WriteKeepsPublicKey(m: Machine, slot: string, path: string, text: string, minted: bytes, fate: Fate)
    ensures WriteSecret(m, slot, path, text, minted, fate).0.publicKey == m.publicKey
  {
    KeyKeepsPublicKey(m, minted, fate);
    var (m', r) := GetOrCreateKey(m, minted, fate);
    assert m'.publicKey == m.publicKey && Restart(m').publicKey == m.publicKey;
  }

  /** Reading a secret does not touch the public key. */
  lemma ReadKeepsPublicKey(m: Machine, slot: string, path: string, minted: bytes, fate: Fate)
    ensures ReadSecret(m, slot, path, minted, fate).0.publicKey == m.publicKey
  {
    if path in m.files && fate != FileUnreadable {
      if m.files[path].Sealed? {
        KeyKeepsPublicKey(m, minted, fate);
      } else {
        WriteKeepsPublicKey(m, slot, path, m.files[path].text, minted, fate);
      }
    }
  }

  // ---------- The object ----------

  class Store {
    const adapter: Adapter
    var keyFile: Option<string>
    var files: map<string, Content>
    var publicKey: Option<string>
    var cached: Option<bytes>

    function Current(): Machine
      reads this
    {
      Machine(adapter, keyFile, files, publicKey, cached)
    }

    constructor (m: Machine)
      ensures Current() == m
    {
      adapter, keyFile, files, publicKey, cached := m.adapter, m.keyFile, m.files, m.publicKey, m.cached;
    }

    /** `adapter.get()`: the stored key, nothing, or an error. */
    method AdapterGet(fate: Fate) returns (r: Result<Option<bytes>, StoreError>)
      ensures r == match adapter
                   case EnvKey(raw) =>
                     (if |Base64.Decode(raw)| != DEK_BYTES then Err(BadEnvKey) else Ok(Some(Base64.Decode(raw))))
                   case KeyFile =>
                     match keyFile
                     case None => Ok(None)
                     case Some(text) =>
                       if fate == KeyUnreadable then Err(Unreadable)
                       else match ParseKey(text) case None => Err(MalformedKey) case Some(key) => Ok(Some(key))
    {
      match adapter
      case EnvKey(raw) =>
        var key := Base64.Decode(raw);
        r := if |key| != DEK_BYTES then Err(BadEnvKey) else Ok(Some(key));
      case KeyFile =>
        if keyFile.None? { return Ok(None); }
        if fate == KeyUnreadable { return Err(Unreadable); }
        var key := ParseKey(keyFile.value);
        r := if key.None? then Err(MalformedKey) else Ok(Some(key.value));
    }

    method GetOrCreateDataKey(minted: bytes, fate: Fate) returns (r: Outcome<bytes>)
      modifies this
      ensures (Current(), r) == GetOrCreateKey(old(Current()), minted, fate)
    {
      if cached.Some? { return Done(cached.value); }
      var existing := AdapterGet(fate);
      if existing.Err? { return Threw(existing.error); }
      if existing.value.Some? {
        cached := existing.value;
        return Done(existing.value.value);
      }
      var text := Base64.Encode(minted);
      if fate.TornKeyWrite? {
        keyFile, cached := Some(if fate.n < |text| then text[..fate.n] else text), None;
        return Crashed;
      }
      keyFile := Some(text);
      var stored := AdapterGet(Survive);
      if stored.Err? { return Threw(stored.error); }
      if stored.value.None? || stored.value.value != minted { return Threw(NotRetained); }
      cached := Some(minted);
      r := Done(minted);
    }

    method WriteSecretFile(slot: string, path: string, text: string, minted: bytes, fate: Fate) returns (r: Outcome<()>)
      modifies this
      ensures (Current(), r) == WriteSecret(old(Current()), slot, path, text, minted, fate)
    {
      var key := GetOrCreateDataKey(minted, fate);
      match key
      case Crashed => return Crashed;
      case Threw(x) => return Threw(x);
      case Done(k) =>
        if fate == BeforeRename { cached := None; return Crashed; }
        files := files[path := Sealed(Envelope(k, slot, text))];
        if fate == AfterRename { cached := None; return Crashed; }
        r := Done(());
    }

    method ReadSecretFile(slot: string, path: string, minted: bytes, fate: Fate) returns (r: Outcome<Option<string>>)
      modifies this
      ensures (Current(), r) == ReadSecret(old(Current()), slot, path, minted, fate)
    {
      if path !in files { return Done(None); }
      if fate == FileUnreadable { return Threw(Unreadable); }
      match files[path]
      case Sealed(e) =>
        var key := GetOrCreateDataKey(minted, fate);
        match key {
          case Crashed => return Crashed;
          case Threw(x) => return Threw(x);
          case Done(k) =>
            var text := Open(e, k, slot);
            r := if text.None? then Threw(CannotOpen) else Done(text);
        }
      case Legacy(text) =>
        var written := WriteSecretFile(slot, path, text, minted, fate);
        match written
        case Crashed => return Crashed;
        case Threw(x) => return Threw(x);
        case Done(_) => r := Done(Some(text));
    }

    method CreateIdentity(pair: Identity, minted: bytes, fate: Fate) returns (r: Outcome<Identity>)
      modifies this
      ensures (Current(), r) == NewIdentity(old(Current()), pair, minted, fate)
    {
      var written := WriteSecretFile(SLOT_NODE_KEY, NODE_KEY_PATH, pair.privateKey, minted, fate);
      if written.Crashed? { return Crashed; }
      if written.Threw? { return Threw(written.error); }
      if fate == BeforePublicKey { cached := None; return Crashed; }
      publicKey := Some(pair.publicKey);
      r := Done(pair);
    }

    method LoadOrCreate(pair: Identity, minted: bytes, fate: Fate) returns (r: Outcome<Identity>)
      modifies this
      ensures (Current(), r) == LoadOrCreateIdentity(old(Current()), pair, minted, fate)
    {
      if NODE_KEY_PATH !in files || publicKey.None? {
        r := CreateIdentity(pair, minted, fate);
        return;
      }
      ghost var was := publicKey;
      var read := ReadSecretFile(SLOT_NODE_KEY, NODE_KEY_PATH, minted, fate);
      ReadKeepsPublicKey(old(Current()), SLOT_NODE_KEY, NODE_KEY_PATH, minted, fate);
      assert publicKey == was;
      r := UseOrCreate(read, publicKey.value, pair, minted, fate);
    }

    method UseOrCreate(
        read: Outcome<Option<string>>, storedPublicKey: string, pair: Identity, minted: bytes, fate: Fate)
      returns (r: Outcome<Identity>)
      modifies this
      ensures (Current(), r) == LoadedOrNew(old(Current()), read, storedPublicKey, pair, minted, fate)
    {
      match read
      case Crashed => r := Crashed;
      case Threw(x) => r := Threw(x);
      case Done(text) =>
        if text.Some? && text.value != "" {
          r := Done(Identity(text.value, storedPublicKey));
        } else {
          r := CreateIdentity(pair, minted, fate);
        }
    }
  }
}
