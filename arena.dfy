/**
 * The battle screen (src/Components/Arena/index.tsx): the boss record, the
 * presentational attack flag, and the two handlers that write them. The
 * player's record belongs to the parent component and is written through its
 * setter.
 */
module Arena {
  import opened Wrappers
  import opened Chain
  import opened Constants
  import App

  /** The `attackState` string: `""`, `"attacking"` or `"hit"`, used as a CSS class. */
  datatype AttackState = Idle | Attacking | Hit

  /**
   * The `boss` state: null until fetched, or a record. An `AttackComplete`
   * event that arrives while it is still null spreads `null`, which leaves a
   * record holding only `hp`.
   */
  datatype BossState = NoBoss | HpOnly(hp: int) | Loaded(boss: CharacterData)

  /** `setBoss(prev => ({ ...prev, hp }))`. */
  function WithBossHp(prev: BossState, hp: int): (r: BossState)
    ensures prev.Loaded? <==> r.Loaded?
    ensures !prev.Loaded? ==> r == HpOnly(hp)
    ensures r.Loaded? ==> r.boss.hp == hp && SameExceptHp(r.boss, prev.boss)
  {
    match prev
    case NoBoss => HpOnly(hp)
    case HpOnly(_) => HpOnly(hp)
    case Loaded(b) => Loaded(WithHp(b, hp))
  }

  /** What runAttackAction does, in order: the flag writes and the calls to the contract. */
  datatype ArenaEffect = SetAttackState(state: AttackState) | SubmitAttackBoss | AwaitConfirmation

  /**
   * The effects of one runAttackAction: nothing without a contract handle;
   * otherwise the flag goes to "attacking" before `attackBoss()` is submitted,
   * to "hit" only after `wait()` confirms, and back to "" on any throw.
   */
  function AttackEffects(hasContract: bool, tx: TxOutcome): (log: seq<ArenaEffect>)
    ensures !hasContract <==> log == []
    // one submission, one wait at most, one final flag write: no retry
    ensures hasContract ==> |log| == (if tx == Rejected then 3 else 4)
    ensures hasContract ==> log[0] == SetAttackState(Attacking) && log[1] == SubmitAttackBoss
    ensures SetAttackState(Hit) in log <==> hasContract && tx == Confirmed
    ensures AwaitConfirmation in log <==> hasContract && tx != Rejected
    ensures forall i :: 0 <= i < |log| && log[i] == SetAttackState(Hit) ==>
      i == |log| - 1 && AwaitConfirmation in log[..i]
    ensures hasContract ==> log[|log| - 1] == SetAttackState(if tx == Confirmed then Hit else Idle)
  {
    if !hasContract then []
    else
      match tx
      case Rejected => [SetAttackState(Attacking), SubmitAttackBoss, SetAttackState(Idle)]
      case Reverted => [SetAttackState(Attacking), SubmitAttackBoss, AwaitConfirmation, SetAttackState(Idle)]
      case Confirmed => [SetAttackState(Attacking), SubmitAttackBoss, AwaitConfirmation, SetAttackState(Hit)]
  }

  class ArenaComponent {
    /** The parent, whose `characterNFT` is this screen's `characterNFT` prop. */
    const app: App.AppComponent
    /** Whether a contract handle was built (`window.ethereum` was present on mount). */
    var gameContract: bool
    var boss: BossState
    var attackState: AttackState

    /** First render and the mount effect that builds the contract handle. */
    constructor (app: App.AppComponent, hasProvider: bool)
      ensures this.app == app
      ensures gameContract == hasProvider && boss == NoBoss && attackState == Idle
    {
      this.app := app;
      gameContract := hasProvider;
      boss := NoBoss;
      attackState := Idle;
    }

    /**
     * fetchBoss: `getBigBoss()` normalised. It has no try/catch: a throw,
     * from a missing handle, the call or the normaliser, rejects the promise
     * and leaves the boss as it was.
     */
    method FetchBoss(reply: Reply<CharacterContractData>)
      modifies this
      ensures gameContract == old(gameContract) && attackState == old(attackState)
      ensures old(gameContract) && reply.Returns? && TransformCharacterData(reply.value).Some? ==>
        boss == Loaded(TransformCharacterData(reply.value).value)
      ensures !(old(gameContract) && reply.Returns? && TransformCharacterData(reply.value).Some?) ==>
        boss == old(boss)
    {
      if !gameContract || reply.Throws? {
        return;
      }
      var c := TransformCharacterData(reply.value);
      if c.Some? {
        boss := Loaded(c.value);
      }
    }

    /**
     * runAttackAction. `effects` lists what it did, in order. It writes only
     * the flag: neither the boss nor the player record changes.
     */
    method RunAttackAction(tx: TxOutcome) returns (effects: seq<ArenaEffect>)
      modifies this
      ensures effects == AttackEffects(old(gameContract), tx)
      ensures !old(gameContract) ==> attackState == old(attackState)
      ensures old(gameContract) ==> attackState == (if tx == Confirmed then Hit else Idle)
      ensures gameContract == old(gameContract) && boss == old(boss)
      ensures app.State() == old(app.State())
    {
      effects := [];
      if !gameContract {
        return;
      }
      attackState := Attacking;
      effects := effects + [SetAttackState(Attacking)];
      effects := effects + [SubmitAttackBoss];
      if tx == Rejected {
        attackState := Idle;
        effects := effects + [SetAttackState(Idle)];
        return;
      }
      effects := effects + [AwaitConfirmation];
      if tx == Reverted {
        attackState := Idle;
        effects := effects + [SetAttackState(Idle)];
        return;
      }
      attackState := Hit;
      effects := effects + [SetAttackState(Hit)];
    }

    /**
     * onAttackComplete: both new health values are converted first (a
     * toNumber() that throws aborts before any write), then each record keeps
     * every field but `hp`. The attack flag is not touched.
     */
    method OnAttackComplete(newBossHp: int, newPlayerHp: int)
      requires app.characterNFT.Some?
      modifies this, app
      ensures gameContract == old(gameContract) && attackState == old(attackState)
      ensures app.currentAccount == old(app.currentAccount)
      ensures IsSafeInteger(newBossHp) && IsSafeInteger(newPlayerHp) ==>
        boss == WithBossHp(old(boss), newBossHp) &&
        app.characterNFT == Some(WithHp(old(app.characterNFT.value), newPlayerHp))
      ensures !(IsSafeInteger(newBossHp) && IsSafeInteger(newPlayerHp)) ==>
        boss == old(boss) && app.characterNFT == old(app.characterNFT)
    {
      var bossHp := ToNumber(newBossHp);
      if bossHp.None? {
        return;
      }
      var playerHp := ToNumber(newPlayerHp);
      if playerHp.None? {
        return;
      }
      boss := WithBossHp(boss, bossHp.value);
      app.SetCharacterNFT(Some(WithHp(app.characterNFT.value, playerHp.value)));
    }
  }

  /**
   * The session's step for a new player `hp` (the write onAttackComplete
   * makes through the parent's setter) keeps the account and moves only `hp`
   * of the held record. The link to `OnAttackComplete` is that both apply
   * `WithHp` to the player's record.
   */
  lemma SessionHpStepKeepsAllButHp(s: App.SessionState, hp: int)
    requires App.ScreenOf(s) == App.ArenaScreen
    ensures App.Step(s, App.PlayerHpChanged(hp)).currentAccount == s.currentAccount
    ensures App.Step(s, App.PlayerHpChanged(hp)).characterNFT.Some?
    ensures App.Step(s, App.PlayerHpChanged(hp)).characterNFT.value.hp == hp
    ensures SameExceptHp(App.Step(s, App.PlayerHpChanged(hp)).characterNFT.value, s.characterNFT.value)
  {
  }
}
