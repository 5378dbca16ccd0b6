/**
 * The top-level component (src/App.tsx): the session state, the three
 * actions that write it, and the choice of screen. The wallet provider and
 * the contract are inputs: a `Wallet` for `window.ethereum`, a `Reply` for
 * each awaited call.
 */
module App {
  import opened Wrappers
  import opened Chain
  import opened Constants

  /** `window.ethereum`: absent, or a provider whose account request returned a list or threw. */
  datatype Wallet = NoProvider | Provider(accounts: Reply<seq<string>>)

  /** The two state fields of the component. */
  datatype SessionState = SessionState(currentAccount: Option<string>, characterNFT: Option<CharacterData>)

  /** The state on first render: both fields null. */
  const Initial := SessionState(None, None)

  /** JavaScript truthiness of `currentAccount`: set, and not the empty string. */
  predicate IsConnected(account: Option<string>) {
    account.Some? && account.value != ""
  }

  /** The three screens `renderContent` can return. */
  datatype Screen = ConnectScreen | SelectCharacterScreen | ArenaScreen

  /**
   * renderContent, as its if/else-if chain is written; `None` would be the
   * fall-through that returns nothing. A character record is an object, so
   * it is truthy whenever it is set.
   */
  function RenderContent(currentAccount: Option<string>, characterNFT: Option<CharacterData>): (r: Option<Screen>)
    ensures r.Some?
    ensures r.value == ConnectScreen <==> !IsConnected(currentAccount)
    ensures r.value == SelectCharacterScreen <==> IsConnected(currentAccount) && characterNFT.None?
    ensures r.value == ArenaScreen <==> IsConnected(currentAccount) && characterNFT.Some?
  {
    if !IsConnected(currentAccount) then Some(ConnectScreen)
    else if IsConnected(currentAccount) && characterNFT.None? then Some(SelectCharacterScreen)
    else if IsConnected(currentAccount) && characterNFT.Some? then Some(ArenaScreen)
    else None
  }

  /** The screen shown for a state. */
  function ScreenOf(s: SessionState): Screen {
    RenderContent(s.currentAccount, s.characterNFT).value
  }

  /**
   * checkIfWalletIsConnected: the silent `eth_accounts` check run on mount.
   * Only a provider that returns a non-empty list changes the state.
   */
  function SilentCheck(s: SessionState, wallet: Wallet): (r: SessionState)
    ensures r.characterNFT == s.characterNFT
    ensures wallet.NoProvider? || wallet.accounts.Throws? || wallet.accounts.value == [] ==> r == s
    ensures wallet.Provider? && wallet.accounts.Returns? && wallet.accounts.value != [] ==>
      r.currentAccount == Some(wallet.accounts.value[0])
  {
    match wallet
    case NoProvider => s
    case Provider(Throws) => s
    case Provider(Returns(accounts)) =>
      if |accounts| != 0 then s.(currentAccount := Some(accounts[0])) else s
  }

  /**
   * connectWalletAction: the prompting `eth_requestAccounts` request. There is
   * no length check, so an empty list sets the account to `undefined`.
   */
  function PromptedConnect(s: SessionState, wallet: Wallet): (r: SessionState)
    ensures r.characterNFT == s.characterNFT
    ensures wallet.NoProvider? || wallet.accounts.Throws? ==> r == s
    ensures wallet.Provider? && wallet.accounts.Returns? && wallet.accounts.value != [] ==>
      r.currentAccount == Some(wallet.accounts.value[0])
    ensures wallet.Provider? && wallet.accounts.Returns? && wallet.accounts.value == [] ==>
      r.currentAccount == None
  {
    match wallet
    case NoProvider => s
    case Provider(Throws) => s
    case Provider(Returns(accounts)) =>
      s.(currentAccount := if |accounts| > 0 then Some(accounts[0]) else None)
  }

  /**
   * fetchNFTMetadata: `checkIfUserHasNFT` returns a record; a non-empty name
   * means the user owns a character, which is normalised and stored. A throw,
   * from the call or from the normaliser, leaves the state as it was.
   */
  function NftLookup(s: SessionState, reply: Reply<CharacterContractData>): (r: SessionState)
    ensures r.currentAccount == s.currentAccount
    ensures reply.Returns? && reply.value.name != "" && TransformCharacterData(reply.value).Some? ==>
      r.characterNFT == TransformCharacterData(reply.value)
    ensures !(reply.Returns? && reply.value.name != "" && TransformCharacterData(reply.value).Some?) ==> r == s
  {
    match reply
    case Throws => s
    case Returns(txn) =>
      if txn.name != "" then
        match TransformCharacterData(txn)
        case Some(c) => s.(characterNFT := Some(c))
        case None => s
      else s
  }

  /** The effect keyed on `currentAccount`: it looks the character up only when an account is set. */
  function AccountEffect(s: SessionState, reply: Reply<CharacterContractData>): (r: SessionState)
    ensures r.currentAccount == s.currentAccount
    ensures IsConnected(s.currentAccount) && reply.Returns? && reply.value.name != "" &&
            TransformCharacterData(reply.value).Some? ==>
      r.characterNFT == TransformCharacterData(reply.value)
    ensures r != s ==>
      IsConnected(s.currentAccount) && reply.Returns? && reply.value.name != "" &&
      TransformCharacterData(reply.value).Some?
  {
    if IsConnected(s.currentAccount) then NftLookup(s, reply) else s
  }

  /**
   * What can happen to the session after mount, each one atomic. A handler
   * belongs to a screen and only runs while that screen is shown: the connect
   * button on the connect screen, the mint listener (through `setCharacterNFT`)
   * on the selection screen, the attack listener on the arena.
   */
  datatype Event =
    | ClickConnect(wallet: Wallet)
    | AccountChanged(reply: Reply<CharacterContractData>)
    | CharacterMinted(chosen: Option<CharacterData>)
    | PlayerHpChanged(hp: int)

  /** One event applied to the session; an event for a screen that is not shown does nothing. */
  function Step(s: SessionState, e: Event): (r: SessionState)
    ensures r.currentAccount != s.currentAccount ==> e.ClickConnect? && ScreenOf(s) == ConnectScreen
    ensures r.characterNFT != s.characterNFT ==> IsConnected(s.currentAccount)
  {
    match e
    case ClickConnect(wallet) =>
      if ScreenOf(s) == ConnectScreen then PromptedConnect(s, wallet) else s
    case AccountChanged(reply) =>
      AccountEffect(s, reply)
    case CharacterMinted(chosen) =>
      if ScreenOf(s) == SelectCharacterScreen then s.(characterNFT := chosen) else s
    case PlayerHpChanged(hp) =>
      if ScreenOf(s) == ArenaScreen then s.(characterNFT := Some(WithHp(s.characterNFT.value, hp))) else s
  }

  /** Events applied in order. */
  function Run(s: SessionState, events: seq<Event>): SessionState
    decreases |events|
  {
    if events == [] then s else Run(Step(s, events[0]), events[1..])
  }

  /** A session: the mount-time silent check, then any events. */
  function Launch(wallet: Wallet, events: seq<Event>): SessionState {
    Run(SilentCheck(Initial, wallet), events)
  }

  /** A character is only ever held while an account is connected. */
  predicate CharacterNeedsAccount(s: SessionState) {
    s.characterNFT.Some? ==> IsConnected(s.currentAccount)
  }

  /**
   * Once connected, the account never changes again: the only writer after
   * mount is the connect button, which is only shown while not connected.
   */
  lemma {:induction false} ConnectedAccountIsStable(s: SessionState, events: seq<Event>)
    requires IsConnected(s.currentAccount)
    ensures Run(s, events).currentAccount == s.currentAccount
    decreases |events|
  {
    if events != [] {
      ConnectedAccountIsStable(Step(s, events[0]), events[1..]);
    }
  }

  /** Every event keeps a character from being held without an account. */
  lemma {:induction false} RunKeepsCharacterNeedsAccount(s: SessionState, events: seq<Event>)
    requires CharacterNeedsAccount(s)
    ensures CharacterNeedsAccount(Run(s, events))
    decreases |events|
  {
    if events != [] {
      var e := events[0];
      var t := Step(s, e);
      assert CharacterNeedsAccount(t) by {
        if t.characterNFT.Some? && s.characterNFT.None? {
          assert IsConnected(s.currentAccount);
        }
      }
      RunKeepsCharacterNeedsAccount(t, events[1..]);
    }
  }

  /**
   * In every session the arena is only reached with a connected account, the
   * account seen by the arena is the one connected earlier, and the
   * character screens never appear without one.
   */
  lemma LaunchInvariants(wallet: Wallet, events: seq<Event>)
    ensures CharacterNeedsAccount(Launch(wallet, events))
    ensures ScreenOf(Launch(wallet, events)) != ConnectScreen ==> IsConnected(Launch(wallet, events).currentAccount)
    ensures IsConnected(SilentCheck(Initial, wallet).currentAccount) ==>
      Launch(wallet, events).currentAccount == SilentCheck(Initial, wallet).currentAccount
  {
    var s0 := SilentCheck(Initial, wallet);
    RunKeepsCharacterNeedsAccount(s0, events);
    if IsConnected(s0.currentAccount) {
      ConnectedAccountIsStable(s0, events);
    }
  }

  /** The component's state, with the three actions and the setter it hands down to its children. */
  class AppComponent {
    var currentAccount: Option<string>
    var characterNFT: Option<CharacterData>

    function State(): SessionState
      reads this
    {
      SessionState(currentAccount, characterNFT)
    }

    constructor ()
      ensures State() == Initial
    {
      currentAccount := None;
      characterNFT := None;
    }

    /** checkIfWalletIsConnected. */
    method CheckIfWalletIsConnected(wallet: Wallet)
      modifies this
      ensures State() == SilentCheck(old(State()), wallet)
    {
      if wallet.NoProvider? {
        return;
      }
      match wallet.accounts
      case Throws =>
      case Returns(accounts) =>
        if |accounts| != 0 {
          currentAccount := Some(accounts[0]);
        }
    }

    /** connectWalletAction; `alerted` is the "Get MetaMask!" alert. */
    method ConnectWalletAction(wallet: Wallet) returns (alerted: bool)
      modifies this
      ensures alerted <==> wallet.NoProvider?
      ensures alerted ==> State() == old(State())
      ensures State() == PromptedConnect(old(State()), wallet)
    {
      alerted := false;
      if wallet.NoProvider? {
        alerted := true;
        return;
      }
      match wallet.accounts
      case Throws =>
      case Returns(accounts) =>
        currentAccount := if |accounts| > 0 then Some(accounts[0]) else None;
    }

    /** fetchNFTMetadata. */
    method FetchNFTMetadata(reply: Reply<CharacterContractData>)
      modifies this
      ensures State() == NftLookup(old(State()), reply)
    {
      if reply.Throws? {
        return;
      }
      var txn := reply.value;
      if txn.name != "" {
        var c := TransformCharacterData(txn);
        if c.Some? {
          characterNFT := c;
        }
      }
    }

    /** The effect that runs whenever `currentAccount` changes; `fetched` says whether it looked the character up. */
    method OnCurrentAccountChanged(reply: Reply<CharacterContractData>) returns (fetched: bool)
      modifies this
      ensures fetched == IsConnected(old(currentAccount))
      ensures State() == AccountEffect(old(State()), reply)
    {
      fetched := IsConnected(currentAccount);
      if fetched {
        FetchNFTMetadata(reply);
      }
    }

    /** setCharacterNFT, the setter handed to SelectCharacter and Arena. */
    method SetCharacterNFT(value: Option<CharacterData>)
      modifies this
      ensures characterNFT == value
      ensures currentAccount == old(currentAccount)
    {
      characterNFT := value;
    }
  }
}
