/** How every operation on secrets ends, mishap by mishap: when it returns, what it throws, what
    it leaves on disk, and that a crash leaves nothing in memory. */
module SecretOutcomes {
  import opened Wrappers
  import opened Bytes
  import opened SecretStore
  import opened SecretRuns
  import Base64

  /** How getting the key ends, in terms of the key that can be read. */
  function KeyOutcome(m: Machine, minted: bytes, fate: Fate): Outcome<bytes> {
    var readable := ReadableKey(m);
    if m.cached.Some? then Done(m.cached.value)
    else if m.adapter.KeyFile? && m.keyFile.None? then if fate.TornKeyWrite? then Crashed else Done(minted)
    else if m.adapter.KeyFile? && fate == KeyUnreadable then Threw(Unreadable)
    else if readable.Some? then Done(readable.value)
    else Threw(if m.adapter.KeyFile? then MalformedKey else BadEnvKey)
  }

  /** The key file afterwards: an absent one is provisioned, wholly or up to the crash. */
  function KeyFileAfter(m: Machine, minted: bytes, fate: Fate): Option<string> {
    var text := Base64.Encode(minted);
    if m.cached.Some? || m.adapter.EnvKey? || m.keyFile.Some? then m.keyFile
    else if fate.TornKeyWrite? && fate.n < |text| then Some(text[..fate.n])
    else Some(text)
  }

  /** What the process remembers afterwards. */
  function CachedAfter(m: Machine, r: Outcome<bytes>): Option<bytes> {
    match r
    case Done(key) => Some(key)
    case Threw(_) => m.cached
    case Crashed => None
  }

  /** Getting the key returns a readable or a new key, throws for one that cannot be read or is
      malformed, and crashes only while it provisions; a minted key is always what is read back. */
  lemma KeyIsDecided(m: Machine, minted: bytes, fate: Fate)
    requires |minted| == DEK_BYTES
    ensures var r := KeyOutcome(m, minted, fate);
            GetOrCreateKey(m, minted, fate) ==
            (m.(keyFile := KeyFileAfter(m, minted, fate), cached := CachedAfter(m, r)), r)
  {
    WholeKey(minted);
  }

  /** How a write ends once the key is there. */
  function WriteOutcome(m: Machine, minted: bytes, fate: Fate): Outcome<()> {
    match KeyOutcome(m, minted, fate)
    case Threw(x) => Threw(x)
    case Crashed => Crashed
    case Done(_) => if fate == BeforeRename || fate == AfterRename then Crashed else Done(())
  }

  /** A write returns exactly when it got the key and met no mishap around the rename; the file is
      new, sealed under the key and its slot, exactly from the rename on. */
  lemma WriteIsDecided(m: Machine, slot: string, path: string, text: string, minted: bytes, fate: Fate)
    requires |minted| == DEK_BYTES
    ensures var (m', r) := WriteSecret(m, slot, path, text, minted, fate);
            var key := KeyOutcome(m, minted, fate);
            && r == WriteOutcome(m, minted, fate)
            && m'.files == (if key.Done? && fate != BeforeRename
                            then m.files[path := Sealed(Envelope(key.value, slot, text))] else m.files)
            && m'.keyFile == KeyFileAfter(m, minted, fate) && m'.publicKey == m.publicKey
            && m'.cached == (if r.Crashed? then None else CachedAfter(m, key))
  {
    KeyIsDecided(m, minted, fate);
  }

  /** An envelope opens under its own key and slot, and under no other. */
  lemma OnlyItsKeyAndSlotOpen(m: Machine, slot: string, path: string, minted: bytes, fate: Fate, e: Envelope)
    requires |minted| == DEK_BYTES && path in m.files && m.files[path] == Sealed(e) && fate != FileUnreadable
    ensures var r := ReadSecret(m, slot, path, minted, fate).1;
            match KeyOutcome(m, minted, fate)
            case Threw(x) => r == Threw(x)
            case Crashed => r == Crashed
            case Done(key) => r == if e.key == key && e.slot == slot then Done(Some(e.text)) else Threw(CannotOpen)
  {
    KeyIsDecided(m, minted, fate);
  }

  /** How a read ends where every file is what was last written. */
  function ReadOutcome(m: Machine, w: Written, path: string, minted: bytes, fate: Fate): Outcome<Option<string>> {
    if path !in w then Done(None)
    else if fate == FileUnreadable then Threw(Unreadable)
    else if path in m.files && m.files[path].Legacy? then
      match WriteOutcome(m, minted, fate)
      case Threw(x) => Threw(x)
      case Crashed => Crashed
      case Done(_) => Done(Some(w[path]))
    else
      match KeyOutcome(m, minted, fate)
      case Threw(x) => Threw(x)
      case Crashed => Crashed
      case Done(_) => Done(Some(w[path]))
  }

  /** The key of every envelope is readable, so a read ends as getting the key ends, or as the write
      that migrates a legacy file; a crash leaves nothing in memory. */
  lemma ReadIsDecided(slots: Slots, m: Machine, w: Written, path: string, minted: bytes, fate: Fate)
    requires Inv(slots, m, w) && |minted| == DEK_BYTES
    ensures var (m', r) := ReadSecret(m, slots(path), path, minted, fate);
            && r == ReadOutcome(m, w, path, minted, fate)
            && (r.Crashed? ==> m'.cached.None?)
            && m'.publicKey == m.publicKey
  {
    KeyIsDecided(m, minted, fate);
    if path in m.files && fate != FileUnreadable {
      match m.files[path]
      case Legacy(text) => WriteIsDecided(m, slots(path), path, text, minted, fate);
      case Sealed(e) =>
        OnlyItsKeyAndSlotOpen(m, slots(path), path, minted, fate, e);
        SealedKeyIsOutcome(slots, m, w, path, e, minted, fate);
    }
  }

  lemma SealedKeyIsOutcome(
      slots: Slots, m: Machine, w: Written, path: string, e: Envelope, minted: bytes, fate: Fate)
    requires Inv(slots, m, w) && path in m.files && m.files[path] == Sealed(e)
    ensures KeyOutcome(m, minted, fate).Done? ==> KeyOutcome(m, minted, fate).value == e.key
    ensures e.slot == slots(path) && e.text == w[path]
  {
  }

  /** How storing a new identity ends. */
  function NewOutcome(m: Machine, pair: Identity, minted: bytes, fate: Fate): Outcome<Identity> {
    match WriteOutcome(m, minted, fate)
    case Threw(x) => Threw(x)
    case Crashed => Crashed
    case Done(_) => if fate == BeforePublicKey then Crashed else Done(pair)
  }

  lemma NewIsDecided(m: Machine, pair: Identity, minted: bytes, fate: Fate)
    requires |minted| == DEK_BYTES
    ensures var (m', r) := NewIdentity(m, pair, minted, fate);
            && r == NewOutcome(m, pair, minted, fate)
            && (r.Crashed? ==> m'.cached.None?)
            && m'.publicKey == (if r.Done? then Some(pair.publicKey) else m.publicKey)
  {
    WriteIsDecided(m, SLOT_NODE_KEY, NODE_KEY_PATH, pair.privateKey, minted, fate);
  }

  /** How loading the identity ends: as the read of the private key, when both files exist and that
      key is not empty; otherwise as storing the generated pair. */
  lemma LoadIsDecided(slots: Slots, m: Machine, w: Written, pair: Identity, minted: bytes, fate: Fate)
    requires Inv(slots, m, w) && |minted| == DEK_BYTES
    ensures var (m', r) := LoadOrCreateIdentity(m, pair, minted, fate);
            && (r.Crashed? ==> m'.cached.None?)
            && (HasIdentity(m, w) ==>
                  match ReadOutcome(m, w, NODE_KEY_PATH, minted, fate)
                  case Threw(x) => r == Threw(x)
                  case Crashed => r == Crashed
                  case Done(_) => r == Done(Identity(w[NODE_KEY_PATH], m.publicKey.value)))
            && (NODE_KEY_PATH !in w || m.publicKey.None? ==> r == NewOutcome(m, pair, minted, fate))
  {
    if NODE_KEY_PATH in m.files && m.publicKey.Some? {
      ReadIsDecided(slots, m, w, NODE_KEY_PATH, minted, fate);
      NewIsDecided(ReadSecret(m, SLOT_NODE_KEY, NODE_KEY_PATH, minted, fate).0, pair, minted, fate);
    } else {
      NewIsDecided(m, pair, minted, fate);
    }
  }

  /** Whatever an action was, if it crashed or was a restart the process remembers nothing. */
  lemma CrashForgets(slots: Slots, m: Machine, w: Written, a: Action)
    requires Inv(slots, m, w) && Sensible(a)
    ensures var m' := Step(slots, m, a);
            var crashed := match a
              case Boot => true
              case Save(path, text, minted, fate) => WriteSecret(m, slots(path), path, text, minted, fate).1.Crashed?
              case Load(path, minted, fate) => ReadSecret(m, slots(path), path, minted, fate).1.Crashed?
              case LoadIdentity(pair, minted, fate) => LoadOrCreateIdentity(m, pair, minted, fate).1.Crashed?;
            crashed ==> m'.cached.None?
  {
    match a
    case Boot =>
    case Save(path, text, minted, fate) => WriteIsDecided(m, slots(path), path, text, minted, fate);
    case Load(path, minted, fate) => ReadIsDecided(slots, m, w, path, minted, fate);
    case LoadIdentity(pair, minted, fate) => LoadIsDecided(slots, m, w, pair, minted, fate);
  }
}
