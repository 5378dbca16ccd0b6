/**
 * The character records of the game client and the normaliser that turns
 * the contract's wire record into the in-memory one (src/constants.ts).
 */
module Constants {
  import opened Wrappers

  /** Number.MAX_SAFE_INTEGER, 2^53 - 1: the largest magnitude BigNumber.toNumber() accepts. */
  const MaxSafeInteger: int := 0x1F_FFFF_FFFF_FFFF

  predicate IsSafeInteger(n: int) {
    -MaxSafeInteger <= n <= MaxSafeInteger
  }

  /** BigNumber.toNumber(): the same value as a number, or `None` when it throws an overflow. */
  function ToNumber(b: int): (r: Option<int>)
    ensures r.Some? <==> IsSafeInteger(b)
    ensures r.Some? ==> r.value == b
  {
    if IsSafeInteger(b) then Some(b) else None
  }

  /**
   * An optional key of a JavaScript object: not there at all, there with the
   * value `undefined`, or there with a value. The `in` operator tells the
   * first two apart; reading the key (with or without `?.`) does not.
   */
  datatype Slot<+T> = Missing | Undefined | Present(value: T)
  {
    /** What reading the key yields. */
    function Read(): Option<T> {
      if Present? then Some(value) else None
    }
  }

  /**
   * The in-memory records. `Character` is CharacterData, five fields;
   * `PlayableCharacter` is PlayableCharacterData, which adds `defense` and the
   * two critical-hit fields, each possibly `undefined`.
   */
  datatype CharacterData =
    | Character(name: string, imageURI: string, hp: int, maxHp: int, attackDamage: int)
    | PlayableCharacter(name: string, imageURI: string, hp: int, maxHp: int, attackDamage: int,
                        defense: Option<int>, criticalHitAt: Option<int>, criticalHitCounter: Option<int>)

  /** CharacterContractData: the record as the contract returns it, big integers as `int`. */
  datatype CharacterContractData = CharacterContractData(
    name: string,
    imageURI: string,
    hp: int,
    maxHp: int,
    attackDamage: int,
    defense: Slot<int>,
    criticalHitAt: Slot<int>,
    criticalHitCounter: Slot<int>)

  /**
   * `characterData?.defense?.toNumber()`: `Some(None)` when the key holds
   * `undefined`, `Some(Some(d))` when it converts, `None` when toNumber throws.
   */
  function ConvertDefense(defense: Slot<int>): (r: Option<Option<int>>)
    ensures r.None? <==> defense.Present? && !IsSafeInteger(defense.value)
    ensures r.Some? ==> r.value == defense.Read()
  {
    match defense
    case Present(b) => if IsSafeInteger(b) then Some(Some(b)) else None
    case _ => Some(None)
  }

  /**
   * transformCharacterData. The branch is chosen by whether the `defense` key
   * is present; `None` stands for a toNumber() that threw.
   */
  function TransformCharacterData(raw: CharacterContractData): (r: Option<CharacterData>)
    // it fails exactly when one of the converted numbers is outside the safe range
    ensures r.Some? <==>
      IsSafeInteger(raw.hp) && IsSafeInteger(raw.maxHp) && IsSafeInteger(raw.attackDamage) &&
      (raw.defense.Present? ==> IsSafeInteger(raw.defense.value))
    // name and imageURI copied, the three big integers carried over by value, in both branches
    ensures r.Some? ==>
      r.value.name == raw.name && r.value.imageURI == raw.imageURI &&
      r.value.hp == raw.hp && r.value.maxHp == raw.maxHp && r.value.attackDamage == raw.attackDamage
    // the shape depends only on the presence of the `defense` key
    ensures r.Some? ==> (r.value.PlayableCharacter? <==> !raw.defense.Missing?)
    // optional fields passed through as read, never defaulted
    ensures r.Some? && r.value.PlayableCharacter? ==>
      r.value.defense == raw.defense.Read() &&
      r.value.criticalHitAt == raw.criticalHitAt.Read() &&
      r.value.criticalHitCounter == raw.criticalHitCounter.Read()
  {
    var hp := ToNumber(raw.hp);
    var maxHp := ToNumber(raw.maxHp);
    var attackDamage := ToNumber(raw.attackDamage);
    if !raw.defense.Missing? then
      var defense := ConvertDefense(raw.defense);
      if hp.None? || maxHp.None? || defense.None? || attackDamage.None? then None
      else Some(PlayableCharacter(raw.name, raw.imageURI, hp.value, maxHp.value, attackDamage.value,
                                  defense.value, raw.criticalHitAt.Read(), raw.criticalHitCounter.Read()))
    else
      if hp.None? || maxHp.None? || attackDamage.None? then None
      else Some(Character(raw.name, raw.imageURI, hp.value, maxHp.value, attackDamage.value))
  }

  /** Every number a record holds fits a JavaScript number. */
  predicate IsSafeCharacter(c: CharacterData) {
    IsSafeInteger(c.hp) && IsSafeInteger(c.maxHp) && IsSafeInteger(c.attackDamage) &&
    (c.PlayableCharacter? && c.defense.Some? ==> IsSafeInteger(c.defense.value))
  }

  /**
   * The wire record the contract would send for an in-memory record: a
   * playable record keeps the `defense` key (holding `undefined` when the
   * value is), a plain one has none of the optional keys.
   */
  function ToContractData(c: CharacterData): CharacterContractData {
    match c
    case Character(n, i, hp, maxHp, ad) =>
      CharacterContractData(n, i, hp, maxHp, ad, Missing, Missing, Missing)
    case PlayableCharacter(n, i, hp, maxHp, ad, d, at, counter) =>
      CharacterContractData(n, i, hp, maxHp, ad, SlotOf(d), SlotOf(at), SlotOf(counter))
  }

  /** A key that is always there, holding `undefined` or the value. */
  function SlotOf(o: Option<int>): Slot<int> {
    if o.Some? then Present(o.value) else Undefined
  }

  /**
   * Two wire records look the same to the normaliser: same fields as read,
   * same presence of `defense`, and, only when that key is there, the same
   * critical-hit fields as read (without it they are dropped).
   */
  predicate SameReading(a: CharacterContractData, b: CharacterContractData) {
    a.name == b.name && a.imageURI == b.imageURI &&
    a.hp == b.hp && a.maxHp == b.maxHp && a.attackDamage == b.attackDamage &&
    a.defense.Missing? == b.defense.Missing? && a.defense.Read() == b.defense.Read() &&
    (!a.defense.Missing? ==>
      a.criticalHitAt.Read() == b.criticalHitAt.Read() &&
      a.criticalHitCounter.Read() == b.criticalHitCounter.Read())
  }

  /** Normalising the wire form of any record in the safe range gives that record back. */
  lemma TransformToContractData(c: CharacterData)
    requires IsSafeCharacter(c)
    ensures TransformCharacterData(ToContractData(c)) == Some(c)
  {
  }

  /** A normalised record's wire form reads exactly like the input it came from. */
  lemma ContractDataOfTransform(raw: CharacterContractData)
    requires TransformCharacterData(raw).Some?
    ensures IsSafeCharacter(TransformCharacterData(raw).value)
    ensures SameReading(ToContractData(TransformCharacterData(raw).value), raw)
  {
  }

  /**
   * The normaliser is a function of what it reads and nothing else: equal
   * inputs, or inputs that differ only in what it cannot see (a missing
   * versus an `undefined` critical-hit key), give equal results.
   */
  lemma TransformDependsOnlyOnReading(a: CharacterContractData, b: CharacterContractData)
    requires SameReading(a, b)
    ensures TransformCharacterData(a) == TransformCharacterData(b)
  {
  }

  /** Two records agree on every field except `hp`. */
  predicate SameExceptHp(a: CharacterData, b: CharacterData) {
    a.name == b.name && a.imageURI == b.imageURI && a.maxHp == b.maxHp && a.attackDamage == b.attackDamage &&
    a.PlayableCharacter? == b.PlayableCharacter? &&
    (a.PlayableCharacter? ==>
      a.defense == b.defense && a.criticalHitAt == b.criticalHitAt && a.criticalHitCounter == b.criticalHitCounter)
  }

  /** `{ ...prev, hp }`: the previous record with `hp` overwritten. */
  function WithHp(prev: CharacterData, hp: int): (r: CharacterData)
    ensures r.hp == hp
    ensures SameExceptHp(r, prev)
    ensures r == prev <==> prev.hp == hp
  {
    prev.(hp := hp)
  }
}
