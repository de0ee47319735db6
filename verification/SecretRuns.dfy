/** Every sequence of saves, loads, crashes and restarts of one process at a time. */
module SecretRuns {
  import opened Wrappers
  import opened Bytes
  import opened Strings
  import opened SecretStore
  import Base64

  /** The slot that each path is written under. */
  type Slots = string -> string

  /** What one process does. `minted` and `pair` are what the random generators would give. */
  datatype Action =
    | Boot
    | Save(path: string, text: string, minted: bytes, fate: Fate)
    | Load(path: string, minted: bytes, fate: Fate)
    | LoadIdentity(pair: Identity, minted: bytes, fate: Fate)

  function Step(slots: Slots, m: Machine, a: Action): Machine {
    match a
    case Boot => Restart(m)
    case Save(path, text, minted, fate) => WriteSecret(m, slots(path), path, text, minted, fate).0
    case Load(path, minted, fate) => ReadSecret(m, slots(path), path, minted, fate).0
    case LoadIdentity(pair, minted, fate) => LoadOrCreateIdentity(m, pair, minted, fate).0
  }

  function Run(slots: Slots, m: Machine, actions: seq<Action>): Machine
    decreases |actions|
  {
    if actions == [] then m else Run(slots, Step(slots, m, actions[0]), actions[1..])
  }

  /** Keys have 32 bytes; other secrets do not go to the identity's path; generated private
      keys are not empty. */
  predicate Sensible(a: Action) {
    match a
    case Boot => true
    case Save(path, _, minted, _) => |minted| == DEK_BYTES && path != NODE_KEY_PATH
    case Load(_, minted, _) => |minted| == DEK_BYTES
    case LoadIdentity(pair, minted, _) => |minted| == DEK_BYTES && pair.privateKey != ""
  }

  // ---------- The data key ----------

  /** The key that can be read, whatever the process remembers. */
  function ReadableKey(m: Machine): Option<bytes> {
    match m.adapter
    case EnvKey(raw) => if |Base64.Decode(raw)| == DEK_BYTES then Some(Base64.Decode(raw)) else None
    case KeyFile => match m.keyFile case None => None case Some(text) => ParseKey(text)
  }

  /** What is cached can be read back. */
  ghost predicate CacheIsReadable(m: Machine) { m.cached.Some? ==> m.cached == ReadableKey(m) }

  lemma {:induction false} NoSpaceInText(s: seq<Base64.sextet>)
    ensures forall i :: 0 <= i < |Base64.Print(s, false)| ==> !IsSpace(Base64.Print(s, false)[i])
  {
    if s != [] { NoSpaceInText(s[1..]); }
  }

  lemma PrefixIsTrimmed(key: bytes, n: nat)
    requires n <= |Base64.Encode(key)|
    ensures Trim(Base64.Encode(key)[..n]) == Base64.Encode(key)[..n]
  {
    var text := Base64.Encode(key);
    NoSpaceInText(Base64.ToSextets(key));
    assert forall i :: 0 <= i < |text| ==> !IsSpace(text[i]);
    TrimOfTrimmed(text[..n]);
  }

  /** A torn key file is malformed, or it is the whole key. */
  lemma TornKey(key: bytes, n: nat)
    requires |key| == DEK_BYTES && n <= |Base64.Encode(key)|
    ensures ParseKey(Base64.Encode(key)[..n]) == if n >= 43 then Some(key) else None
  {
    PrefixIsTrimmed(key, n);
    Base64.PrefixOfKeyText(key, n);
  }

  lemma WholeKey(key: bytes)
    requires |key| == DEK_BYTES
    ensures ParseKey(Base64.Encode(key)) == Some(key)
  {
    Base64.PrefixOfKeyText(key, 0);
    TornKey(key, 44);
    assert Base64.Encode(key)[..44] == Base64.Encode(key);
  }

  /** What getting the key does to the machine: nothing but, at most, provision an absent key
      file and remember the key. */
  ghost predicate KeyStepOk(m: Machine, m': Machine, r: Outcome<bytes>) {
    && CacheIsReadable(m') && m'.adapter == m.adapter && m'.files == m.files && m'.publicKey == m.publicKey
    && (m.keyFile.Some? ==> m'.keyFile == m.keyFile)
    && (ReadableKey(m).Some? ==> ReadableKey(m') == ReadableKey(m))
    && (r.Done? ==> ReadableKey(m') == Some(r.value) && m'.cached == Some(r.value))
    && (r.Crashed? ==> m'.cached.None?)
  }

  lemma MintStep(m: Machine, minted: bytes, fate: Fate)
    requires m.adapter.KeyFile? && m.keyFile.None? && m.cached.None? && |minted| == DEK_BYTES
    ensures KeyStepOk(m, MintKey(m, minted, fate).0, MintKey(m, minted, fate).1)
  {
    WholeKey(minted);
    if fate.TornKeyWrite? {
      var text := Base64.Encode(minted);
      if fate.n < |text| { TornKey(minted, fate.n); }
    }
  }

  lemma KeyStep(m: Machine, minted: bytes, fate: Fate)
    requires CacheIsReadable(m) && |minted| == DEK_BYTES
    ensures KeyStepOk(m, GetOrCreateKey(m, minted, fate).0, GetOrCreateKey(m, minted, fate).1)
  {
    if m.cached.None? && m.adapter.KeyFile? && m.keyFile.None? { MintStep(m, minted, fate); }
  }

  // ---------- Secret files ----------

  /** What each path was last given: its original text, or the last write that was renamed. */
  type Written = map<string, string>

  /** Each file is absent, legacy text, or an envelope that opens under the readable key and
      its own slot; in each case to the last completed write. */
  ghost predicate Faithful(slots: Slots, m: Machine, w: Written) {
    && m.files.Keys == w.Keys
    && forall path :: path in m.files ==>
         match m.files[path]
         case Legacy(text) => text == w[path]
         case Sealed(e) => ReadableKey(m) == Some(e.key) && e.slot == slots(path) && e.text == w[path]
  }

  ghost predicate Inv(slots: Slots, m: Machine, w: Written) {
    CacheIsReadable(m) && slots(NODE_KEY_PATH) == SLOT_NODE_KEY && Faithful(slots, m, w)
  }

  /** What a write leaves behind: the new text if it got as far as the rename. */
  function AfterWrite(m: Machine, w: Written, path: string, text: string, minted: bytes, fate: Fate): Written {
    if GetOrCreateKey(m, minted, fate).1.Done? && fate != BeforeRename then w[path := text] else w
  }

  lemma SealedKeepsFaithful(slots: Slots, m: Machine, w: Written, path: string, key: bytes, text: string)
    requires Faithful(slots, m, w) && ReadableKey(m) == Some(key)
    ensures Faithful(slots, m.(files := m.files[path := Sealed(Envelope(key, slots(path), text))]), w[path := text])
  {
  }

  lemma SameDiskKeepsFaithful(slots: Slots, m: Machine, m': Machine, w: Written)
    requires Faithful(slots, m, w) && m'.files == m.files
    requires ReadableKey(m).Some? ==> ReadableKey(m') == ReadableKey(m)
    ensures Faithful(slots, m', w)
  {
  }

  /** What no operation does: replace a key file, or change a readable key. */
  ghost predicate KeepsKey(m: Machine, m': Machine) {
    && m'.adapter == m.adapter
    && (m.keyFile.Some? ==> m'.keyFile == m.keyFile)
    && (ReadableKey(m).Some? ==> ReadableKey(m') == ReadableKey(m))
  }

  lemma WriteKeeps(slots: Slots, m: Machine, w: Written, path: string, text: string, minted: bytes, fate: Fate)
    requires Inv(slots, m, w) && |minted| == DEK_BYTES
    ensures var (m', r) := WriteSecret(m, slots(path), path, text, minted, fate);
            && Inv(slots, m', AfterWrite(m, w, path, text, minted, fate))
            && KeepsKey(m, m') && m'.publicKey == m.publicKey
            && (r.Done? ==> AfterWrite(m, w, path, text, minted, fate) == w[path := text])
  {
    KeyStep(m, minted, fate);
    var (mid, r) := GetOrCreateKey(m, minted, fate);
    SameDiskKeepsFaithful(slots, m, mid, w);
    if r.Done? { SealedKeepsFaithful(slots, mid, w, path, r.value, text); }
  }

  lemma ReadSealedKeeps(slots: Slots, m: Machine, w: Written, path: string, minted: bytes, fate: Fate)
    requires Inv(slots, m, w) && |minted| == DEK_BYTES
    requires path in m.files && m.files[path].Sealed? && fate != FileUnreadable
    ensures var (m', r) := ReadSecret(m, slots(path), path, minted, fate);
            && Inv(slots, m', w) && KeepsKey(m, m') && m'.publicKey == m.publicKey
            && r != Threw(CannotOpen) && (r.Done? ==> r.value == Some(w[path]))
  {
    KeyStep(m, minted, fate);
    SameDiskKeepsFaithful(slots, m, GetOrCreateKey(m, minted, fate).0, w);
  }

  lemma ReadLegacyKeeps(slots: Slots, m: Machine, w: Written, path: string, minted: bytes, fate: Fate)
    requires Inv(slots, m, w) && |minted| == DEK_BYTES
    requires path in m.files && m.files[path].Legacy? && fate != FileUnreadable
    ensures var (m', r) := ReadSecret(m, slots(path), path, minted, fate);
            && Inv(slots, m', w) && KeepsKey(m, m') && m'.publicKey == m.publicKey
            && r != Threw(CannotOpen) && (r.Done? ==> r.value == Some(w[path]))
  {
    var text := m.files[path].text;
    WriteKeeps(slots, m, w, path, text, minted, fate);
    assert w[path := text] == w;
    WriteNeverOpens(m, slots(path), path, text, minted, fate);
  }

  lemma WriteNeverOpens(m: Machine, slot: string, path: string, text: string, minted: bytes, fate: Fate)
    ensures WriteSecret(m, slot, path, text, minted, fate).1 != Threw(CannotOpen)
  {
  }

  /** Reading never changes what a path holds, and what it returns is the last completed write;
      migrating legacy text included. */
  lemma ReadKeeps(slots: Slots, m: Machine, w: Written, path: string, minted: bytes, fate: Fate)
    requires Inv(slots, m, w) && |minted| == DEK_BYTES
    ensures var (m', r) := ReadSecret(m, slots(path), path, minted, fate);
            && Inv(slots, m', w) && KeepsKey(m, m') && m'.publicKey == m.publicKey
            && r != Threw(CannotOpen)
            && (r.Done? ==> r.value == if path in w then Some(w[path]) else None)
  {
    if path in m.files && fate != FileUnreadable {
      if m.files[path].Sealed? {
        ReadSealedKeeps(slots, m, w, path, minted, fate);
      } else {
        ReadLegacyKeeps(slots, m, w, path, minted, fate);
      }
    }
  }

  /** With a readable key and no mishap, every stored secret is read back. */
  lemma ReadSucceeds(slots: Slots, m: Machine, w: Written, path: string, minted: bytes)
    requires Inv(slots, m, w) && path in w && ReadableKey(m).Some?
    ensures ReadSecret(m, slots(path), path, minted, Survive).1 == Done(Some(w[path]))
  {
  }

  // ---------- The identity ----------

  function AfterIdentity(m: Machine, w: Written, pair: Identity, minted: bytes, fate: Fate): Written {
    if NODE_KEY_PATH in m.files && m.publicKey.Some? then
      var (m', r) := ReadSecret(m, SLOT_NODE_KEY, NODE_KEY_PATH, minted, fate);
      if r.Done? && (r.value.None? || r.value.value == "")
      then AfterWrite(m', w, NODE_KEY_PATH, pair.privateKey, minted, fate) else w
    else AfterWrite(m, w, NODE_KEY_PATH, pair.privateKey, minted, fate)
  }

  lemma NewIdentityKeeps(slots: Slots, m: Machine, w: Written, pair: Identity, minted: bytes, fate: Fate)
    requires Inv(slots, m, w) && |minted| == DEK_BYTES
    ensures var (m', r) := NewIdentity(m, pair, minted, fate);
            && Inv(slots, m', AfterWrite(m, w, NODE_KEY_PATH, pair.privateKey, minted, fate))
            && KeepsKey(m, m')
            && (m'.publicKey == m.publicKey || (r == Done(pair) && m'.publicKey == Some(pair.publicKey)))
            && (r.Done? ==> r == Done(pair) && AfterWrite(m, w, NODE_KEY_PATH, pair.privateKey, minted, fate)
                                                == w[NODE_KEY_PATH := pair.privateKey])
  {
    WriteKeeps(slots, m, w, NODE_KEY_PATH, pair.privateKey, minted, fate);
    var (mid, r) := WriteSecret(m, SLOT_NODE_KEY, NODE_KEY_PATH, pair.privateKey, minted, fate);
    var w' := AfterWrite(m, w, NODE_KEY_PATH, pair.privateKey, minted, fate);
    SameDiskKeepsFaithful(slots, mid, Restart(mid), w');
    SameDiskKeepsFaithful(slots, mid, mid.(publicKey := Some(pair.publicKey)), w');
  }

  lemma IdentityKeeps(slots: Slots, m: Machine, w: Written, pair: Identity, minted: bytes, fate: Fate)
    requires Inv(slots, m, w) && |minted| == DEK_BYTES
    ensures var (m', r) := LoadOrCreateIdentity(m, pair, minted, fate);
            var w' := AfterIdentity(m, w, pair, minted, fate);
            && Inv(slots, m', w') && KeepsKey(m, m')
            && (r.Done? ==> NODE_KEY_PATH in w' && r.value.privateKey == w'[NODE_KEY_PATH]
                            && m'.publicKey == Some(r.value.publicKey))
  {
    if NODE_KEY_PATH in m.files && m.publicKey.Some? {
      ReadKeeps(slots, m, w, NODE_KEY_PATH, minted, fate);
      NewIdentityKeeps(slots, ReadSecret(m, SLOT_NODE_KEY, NODE_KEY_PATH, minted, fate).0, w, pair, minted, fate);
    } else {
      NewIdentityKeeps(slots, m, w, pair, minted, fate);
    }
  }

  /** Both identity files exist, and the private key is not empty. */
  ghost predicate HasIdentity(m: Machine, w: Written) {
    NODE_KEY_PATH in w && w[NODE_KEY_PATH] != "" && m.publicKey.Some?
  }

  /** Once both files exist, loading never changes the identity. */
  lemma IdentityIsStable(slots: Slots, m: Machine, w: Written, pair: Identity, minted: bytes, fate: Fate)
    requires Inv(slots, m, w) && |minted| == DEK_BYTES && HasIdentity(m, w)
    ensures var (m', r) := LoadOrCreateIdentity(m, pair, minted, fate);
            && AfterIdentity(m, w, pair, minted, fate) == w && m'.publicKey == m.publicKey
            && (r.Done? ==> r.value == Identity(w[NODE_KEY_PATH], m.publicKey.value))
  {
    ReadKeeps(slots, m, w, NODE_KEY_PATH, minted, fate);
  }

  /** With both files there and no mishap, the stored identity is loaded exactly when the
      stored private key is not empty; otherwise the generated one replaces it. */
  lemma LoadsStoredIff(slots: Slots, m: Machine, w: Written, pair: Identity, minted: bytes)
    requires Inv(slots, m, w) && |minted| == DEK_BYTES && ReadableKey(m).Some?
    requires NODE_KEY_PATH in w && m.publicKey.Some? && pair.privateKey != ""
    ensures var (m', r) := LoadOrCreateIdentity(m, pair, minted, Survive);
            && r.Done?
            && (r.value.privateKey == w[NODE_KEY_PATH] <==> w[NODE_KEY_PATH] != "")
            && (w[NODE_KEY_PATH] == "" ==> r.value == pair)
  {
    ReadKeeps(slots, m, w, NODE_KEY_PATH, minted, Survive);
    var (m', r) := ReadSecret(m, SLOT_NODE_KEY, NODE_KEY_PATH, minted, Survive);
    ReadSucceeds(slots, m, w, NODE_KEY_PATH, minted);
    WriteSucceeds(m', SLOT_NODE_KEY, NODE_KEY_PATH, pair.privateKey, minted);
  }

  lemma WriteSucceeds(m: Machine, slot: string, path: string, text: string, minted: bytes)
    requires ReadableKey(m).Some?
    ensures WriteSecret(m, slot, path, text, minted, Survive).1.Done?
  {
  }

  /** An empty legacy key file: two loads in a row, each with its own fresh pair, disagree
      with what was there, and a crash in between leaves two halves of different pairs. */
  lemma EmptyLegacyKeyRotates(pair: Identity, minted: bytes)
    requires |minted| == DEK_BYTES && pair.privateKey != ""
    ensures var m := Machine(KeyFile, None, map[NODE_KEY_PATH := Legacy("")], Some("OLD"), None);
            && LoadOrCreateIdentity(m, pair, minted, Survive).1 == Done(pair)
            && var (m', r) := LoadOrCreateIdentity(m, pair, minted, BeforePublicKey);
               && r == Crashed && m'.publicKey == Some("OLD")
               && m'.files == map[NODE_KEY_PATH := Sealed(Envelope(minted, SLOT_NODE_KEY, pair.privateKey))]
  {
    WholeKey(minted);
  }

  // ---------- Runs ----------

  /** What each path was last given, after an action. */
  function AfterAction(slots: Slots, m: Machine, w: Written, a: Action): Written {
    match a
    case Boot => w
    case Save(path, text, minted, fate) => AfterWrite(m, w, path, text, minted, fate)
    case Load(_, _, _) => w
    case LoadIdentity(pair, minted, fate) => AfterIdentity(m, w, pair, minted, fate)
  }

  function AfterRun(slots: Slots, m: Machine, w: Written, actions: seq<Action>): Written
    decreases |actions|
  {
    if actions == [] then w
    else AfterRun(slots, Step(slots, m, actions[0]), AfterAction(slots, m, w, actions[0]), actions[1..])
  }

  lemma StepKeeps(slots: Slots, m: Machine, w: Written, a: Action)
    requires Inv(slots, m, w) && Sensible(a)
    ensures Inv(slots, Step(slots, m, a), AfterAction(slots, m, w, a)) && KeepsKey(m, Step(slots, m, a))
  {
    match a
    case Boot => SameDiskKeepsFaithful(slots, m, Restart(m), w);
    case Save(path, text, minted, fate) => WriteKeeps(slots, m, w, path, text, minted, fate);
    case Load(path, minted, fate) => ReadKeeps(slots, m, w, path, minted, fate);
    case LoadIdentity(pair, minted, fate) => IdentityKeeps(slots, m, w, pair, minted, fate);
  }

  /** Main result: over any run, with crashes anywhere, a readable key never changes, a key
      file is never replaced, and every file is absent, legacy text, or an envelope that opens
      to the last completed write. */
  lemma {:induction false} RunKeeps(slots: Slots, m: Machine, w: Written, actions: seq<Action>)
    requires Inv(slots, m, w) && forall i :: 0 <= i < |actions| ==> Sensible(actions[i])
    ensures Inv(slots, Run(slots, m, actions), AfterRun(slots, m, w, actions)) && KeepsKey(m, Run(slots, m, actions))
    decreases |actions|
  {
    if actions != [] {
      StepKeeps(slots, m, w, actions[0]);
      RunKeeps(slots, Step(slots, m, actions[0]), AfterAction(slots, m, w, actions[0]), actions[1..]);
    }
  }

  /** Main result, reading back: after any run, while the key can be read, every path gives its
      last completed write. */
  lemma SecretsSurvive(slots: Slots, m: Machine, w: Written, actions: seq<Action>, path: string, minted: bytes)
    requires Inv(slots, m, w) && forall i :: 0 <= i < |actions| ==> Sensible(actions[i])
    requires ReadableKey(Run(slots, m, actions)).Some? && path in AfterRun(slots, m, w, actions)
    ensures ReadSecret(Run(slots, m, actions), slots(path), path, minted, Survive).1 ==
            Done(Some(AfterRun(slots, m, w, actions)[path]))
  {
    RunKeeps(slots, m, w, actions);
    ReadSucceeds(slots, Run(slots, m, actions), AfterRun(slots, m, w, actions), path, minted);
  }

  /** An empty disk, or one with legacy files only. */
  lemma LegacyStart(slots: Slots, adapter: Adapter, texts: Written, publicKey: Option<string>)
    requires slots(NODE_KEY_PATH) == SLOT_NODE_KEY
    ensures Inv(slots, Machine(adapter, None, map path | path in texts :: Legacy(texts[path]), publicKey, None), texts)
  {
  }

  lemma StepKeepsIdentity(slots: Slots, m: Machine, w: Written, a: Action)
    requires Inv(slots, m, w) && Sensible(a) && HasIdentity(m, w)
    ensures var w' := AfterAction(slots, m, w, a);
            HasIdentity(Step(slots, m, a), w') && w'[NODE_KEY_PATH] == w[NODE_KEY_PATH]
            && Step(slots, m, a).publicKey == m.publicKey
  {
    match a
    case Boot =>
    case Save(path, text, minted, fate) => WriteKeeps(slots, m, w, path, text, minted, fate);
    case Load(path, minted, fate) => ReadKeeps(slots, m, w, path, minted, fate);
    case LoadIdentity(pair, minted, fate) => IdentityIsStable(slots, m, w, pair, minted, fate);
  }

  /** Main result: once both identity files exist with a private key in them, no run changes
      either. */
  lemma {:induction false} RunKeepsIdentity(slots: Slots, m: Machine, w: Written, actions: seq<Action>)
    requires Inv(slots, m, w) && HasIdentity(m, w) && forall i :: 0 <= i < |actions| ==> Sensible(actions[i])
    ensures var w' := AfterRun(slots, m, w, actions);
            HasIdentity(Run(slots, m, actions), w') && w'[NODE_KEY_PATH] == w[NODE_KEY_PATH]
            && Run(slots, m, actions).publicKey == m.publicKey
    decreases |actions|
  {
    if actions != [] {
      StepKeeps(slots, m, w, actions[0]);
      StepKeepsIdentity(slots, m, w, actions[0]);
      RunKeepsIdentity(slots, Step(slots, m, actions[0]), AfterAction(slots, m, w, actions[0]), actions[1..]);
    }
  }

  /** Any two loads that return, with any run between them, return the same identity. */
  lemma LoadsAgree(
      slots: Slots, m: Machine, w: Written, first: Action, actions: seq<Action>, second: Action)
    requires Inv(slots, m, w) && HasIdentity(m, w) && first.LoadIdentity? && second.LoadIdentity?
    requires Sensible(first) && Sensible(second) && forall i :: 0 <= i < |actions| ==> Sensible(actions[i])
    requires LoadOrCreateIdentity(m, first.pair, first.minted, first.fate).1.Done?
    requires var m' := Run(slots, Step(slots, m, first), actions);
             LoadOrCreateIdentity(m', second.pair, second.minted, second.fate).1.Done?
    ensures var m' := Run(slots, Step(slots, m, first), actions);
            LoadOrCreateIdentity(m', second.pair, second.minted, second.fate).1 ==
            LoadOrCreateIdentity(m, first.pair, first.minted, first.fate).1
  {
    var m1, w1 := Step(slots, m, first), AfterAction(slots, m, w, first);
    IdentityIsStable(slots, m, w, first.pair, first.minted, first.fate);
    StepKeeps(slots, m, w, first);
    RunKeeps(slots, m1, w1, actions);
    RunKeepsIdentity(slots, m1, w1, actions);
    IdentityIsStable(slots, Run(slots, m1, actions), AfterRun(slots, m1, w1, actions),
                     second.pair, second.minted, second.fate);
  }

  // ---------- Matching halves ----------

  /** A stored public key belongs to the stored private key. */
  ghost predicate Matched(publicOf: string -> string, m: Machine, w: Written) {
    m.publicKey.Some? ==> HasIdentity(m, w) && m.publicKey.value == publicOf(w[NODE_KEY_PATH])
  }

  lemma MatchedStep(slots: Slots, publicOf: string -> string, m: Machine, w: Written, a: Action)
    requires Inv(slots, m, w) && Sensible(a) && Matched(publicOf, m, w)
    requires a.LoadIdentity? ==> a.pair.publicKey == publicOf(a.pair.privateKey)
    ensures Matched(publicOf, Step(slots, m, a), AfterAction(slots, m, w, a))
  {
    if m.publicKey.Some? {
      StepKeepsIdentity(slots, m, w, a);
    } else {
      match a
      case Boot =>
      case Save(path, text, minted, fate) => WriteKeeps(slots, m, w, path, text, minted, fate);
      case Load(path, minted, fate) => ReadKeeps(slots, m, w, path, minted, fate);
      case LoadIdentity(pair, minted, fate) => NewIdentityKeeps(slots, m, w, pair, minted, fate);
    }
  }

  /** Started with no public key, or with a matching pair, a run never leaves a public key
      beside another pair's private key. */
  lemma {:induction false} RunKeepsMatched(
      slots: Slots, publicOf: string -> string, m: Machine, w: Written, actions: seq<Action>)
    requires Inv(slots, m, w) && Matched(publicOf, m, w)
    requires forall i :: 0 <= i < |actions| ==>
               && Sensible(actions[i])
               && (actions[i].LoadIdentity? ==>
                     actions[i].pair.publicKey == publicOf(actions[i].pair.privateKey))
    ensures Matched(publicOf, Run(slots, m, actions), AfterRun(slots, m, w, actions))
    decreases |actions|
  {
    if actions != [] {
      StepKeeps(slots, m, w, actions[0]);
      MatchedStep(slots, publicOf, m, w, actions[0]);
      RunKeepsMatched(slots, publicOf, Step(slots, m, actions[0]), AfterAction(slots, m, w, actions[0]), actions[1..]);
    }
  }
}
