/**
 * The character selection screen (src/Components/SelectCharacter/index.tsx):
 * the roster of mintable characters, the mint button, and the listener that
 * reports the minted character to the parent.
 */
module SelectCharacter {
  import opened Wrappers
  import opened Chain
  import opened Constants
  import App

  /**
   * `charactersTxn.map(transformCharacterData)`: every entry normalised, in
   * order; `None` when any entry's conversion throws (the whole map throws).
   */
  function NormaliseRoster(raws: seq<CharacterContractData>): (r: Option<seq<CharacterData>>)
    ensures r.Some? <==> forall i :: 0 <= i < |raws| ==> TransformCharacterData(raws[i]).Some?
    ensures r.Some? ==> |r.value| == |raws|
    ensures r.Some? ==> forall i :: 0 <= i < |raws| ==> Some(r.value[i]) == TransformCharacterData(raws[i])
    decreases |raws|
  {
    if raws == [] then Some([])
    else
      match TransformCharacterData(raws[0])
      case None => None
      case Some(c) =>
        match NormaliseRoster(raws[1..])
        case None => None
        case Some(rest) => Some([c] + rest)
  }

  /** `characters[index]`: the entry, or `undefined` for an index outside the array (negative included). */
  function MintedCharacter(roster: seq<CharacterData>, index: int): (r: Option<CharacterData>)
    ensures r.Some? <==> 0 <= index < |roster|
    ensures r.Some? ==> r.value == roster[index]
  {
    if 0 <= index < |roster| then Some(roster[index]) else None
  }

  /**
   * The roster the listener sees as the source is written: it is registered
   * by an effect keyed only on `gameContract`, in the same render that starts
   * `getCharacters`, so its closure holds the initial empty roster.
   */
  const RosterSeenByListener: seq<CharacterData> := []

  /**
   * onCharacterMint as written: the lookup runs against the captured empty
   * roster, so every mint event sets `characterNFT` to `undefined`, whatever
   * index it carries.
   */
  function MintedCharacterAsWritten(characterIndex: int): (r: Option<CharacterData>)
    ensures r.None?
  {
    MintedCharacter(RosterSeenByListener, characterIndex)
  }

  /**
   * The counterexample: with a fetched roster of three and a mint event for
   * index 1, the intended lookup reports the second entry but the code as
   * written reports nothing, so the screen stays on the selection.
   */
  lemma StaleRosterCounterexample(roster: seq<CharacterData>)
    requires |roster| == 3
    ensures MintedCharacter(roster, 1) == Some(roster[1])
    ensures MintedCharacterAsWritten(1) != MintedCharacter(roster, 1)
  {
  }

  /** One mint button of renderCharacters: its label and the index its onClick submits. */
  datatype MintButton = MintButton(name: string, characterId: nat)

  /** renderCharacters: the button of entry `i` mints character `i`. */
  function RenderCharacters(characters: seq<CharacterData>): (r: seq<MintButton>)
    ensures |r| == |characters|
    ensures forall i :: 0 <= i < |r| ==> r[i].characterId == i && r[i].name == characters[i].name
  {
    seq(|characters|, i requires 0 <= i < |characters| => MintButton(characters[i].name, i))
  }

  class SelectCharacterComponent {
    /** The parent, whose `setCharacterNFT` this screen receives. */
    const app: App.AppComponent
    var characters: seq<CharacterData>
    /** Whether a contract handle was built (`window.ethereum` was present on mount). */
    var gameContract: bool

    /** First render and the mount effect that builds the contract handle. */
    constructor (app: App.AppComponent, hasProvider: bool)
      ensures this.app == app
      ensures characters == [] && gameContract == hasProvider
    {
      this.app := app;
      characters := [];
      gameContract := hasProvider;
    }

    /**
     * getCharacters: the roster becomes the normalisation of the contract's
     * list; a throw (a missing handle, the call, or one entry's conversion)
     * is caught and leaves the roster as it was.
     */
    method GetCharacters(reply: Reply<seq<CharacterContractData>>)
      modifies this
      ensures gameContract == old(gameContract)
      ensures old(gameContract) && reply.Returns? && NormaliseRoster(reply.value).Some? ==>
        |characters| == |reply.value| &&
        forall i :: 0 <= i < |characters| ==> Some(characters[i]) == TransformCharacterData(reply.value[i])
      ensures !(old(gameContract) && reply.Returns? && NormaliseRoster(reply.value).Some?) ==>
        characters == old(characters)
    {
      if !gameContract || reply.Throws? {
        return;
      }
      var roster := NormaliseRoster(reply.value);
      if roster.Some? {
        characters := roster.value;
      }
    }

    /**
     * onCharacterMint, against the current roster. The log line converts
     * `tokenId` and `characterIndex` first, so an out-of-range value throws
     * before anything is set; `sender` plays no part. With a contract handle
     * the parent's `characterNFT` becomes `characters[characterIndex]`
     * (`undefined` outside the roster). `reported` says whether it was set.
     */
    method OnCharacterMint(sender: string, tokenId: int, characterIndex: int) returns (reported: bool)
      modifies app
      ensures reported <==> IsSafeInteger(tokenId) && IsSafeInteger(characterIndex) && gameContract
      ensures reported ==> app.characterNFT == MintedCharacter(characters, characterIndex)
      ensures !reported ==> app.characterNFT == old(app.characterNFT)
      ensures app.currentAccount == old(app.currentAccount)
    {
      reported := false;
      var id := ToNumber(tokenId);
      var index := ToNumber(characterIndex);
      if id.None? || index.None? {
        return;
      }
      if gameContract {
        app.SetCharacterNFT(MintedCharacter(characters, index.value));
        reported := true;
      }
    }

    /**
     * mintCharacterNFTAction(characterId): submits `mintCharacterNFT(characterId)`
     * when there is a contract handle and returns what it submitted. Whatever
     * the transaction does, nothing is written here: a failure is swallowed,
     * and the character arrives only through the mint listener.
     */
    method MintCharacterNFTAction(characterId: nat, tx: TxOutcome) returns (submitted: Option<nat>)
      ensures submitted.Some? <==> gameContract
      ensures submitted.Some? ==> submitted.value == characterId
    {
      if gameContract {
        submitted := Some(characterId);
      } else {
        submitted := None;
      }
    }
  }

  /**
   * The mint listener's write agrees with the session model: when the
   * selection screen is shown, reporting the character at `index` of the
   * current roster is the session step that picks that character, and it
   * opens the arena exactly when the index is inside the roster.
   */
  lemma MintOpensArenaIffIndexInRoster(s: App.SessionState, roster: seq<CharacterData>, index: int)
    requires App.ScreenOf(s) == App.SelectCharacterScreen
    ensures App.ScreenOf(App.Step(s, App.CharacterMinted(MintedCharacter(roster, index)))) == App.ArenaScreen
      <==> 0 <= index < |roster|
  {
  }
}
