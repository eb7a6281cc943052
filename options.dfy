/** The by-title chunking options: three size thresholds and two flags,
    validated and defaulted once by a factory. */
module ChunkingOptions {
  import opened Wrappers

  /** Default hard maximum (`max_characters`). */
  const ChunkMaxCharsDefault: int := 500
  /** Default for `multipage_sections`. */
  const ChunkMultiPageDefault: bool := true

  /** The caller's keyword arguments; `None` stands for "not given" or an explicit None. */
  datatype ChunkingArgs = ChunkingArgs(
    maxCharacters: Option<int>,
    newAfterNChars: Option<int>,
    combineTextUnderNChars: Option<int>,
    multipageSections: Option<bool>,
    includeOrigElements: Option<bool>)

  const NoArgs: ChunkingArgs := ChunkingArgs(None, None, None, None, None)

  /** Validated options: `hardMax` caps every chunk, `softMax` closes a
      pre-chunk early, `combineMax` bounds the merging of small pre-chunks. */
  datatype Options = Options(
    hardMax: nat,
    softMax: nat,
    combineMax: nat,
    multipageSections: bool,
    includeOrigElements: bool)

  /** The ordering every constructed option set keeps. */
  predicate Valid(o: Options) {
    0 < o.hardMax && o.combineMax <= o.softMax <= o.hardMax
  }

  /** `hard_max`: `max_characters`, or the default. */
  function HardMax(a: ChunkingArgs): int {
    a.maxCharacters.GetOr(ChunkMaxCharsDefault)
  }

  /** `soft_max`: `new_after_n_chars`, falling back to the hard maximum when
      it is absent, negative or above the hard maximum. */
  function SoftMax(a: ChunkingArgs): int {
    var hard := HardMax(a);
    match a.newAfterNChars
    case None => hard
    case Some(n) => if n < 0 || n > hard then hard else n
  }

  /** `combine_text_under_n_chars`: defaults to the hard maximum and gives way
      to the soft maximum on conflict. */
  function CombineMax(a: ChunkingArgs): int {
    var combine := a.combineTextUnderNChars.GetOr(HardMax(a));
    var soft := SoftMax(a);
    if combine > soft then soft else combine
  }

  function MultipageSections(a: ChunkingArgs): bool {
    a.multipageSections.GetOr(ChunkMultiPageDefault)
  }

  function IncludeOrigElements(a: ChunkingArgs): bool {
    a.includeOrigElements.GetOr(true)
  }

  /** Decimal rendering of an integer, as an f-string shows it. */
  function IntToString(i: int): (s: string)
    ensures s != [] && (i < 0 <==> s[0] == '-')
  {
    if i < 0 then "-" + NatToString(-i) else NatToString(i)
  }

  function NatToString(n: nat): (s: string)
    ensures s != [] && s[0] != '-'
    decreases n
  {
    var digit := "0123456789"[n % 10];
    if n < 10 then [digit] else NatToString(n / 10) + [digit]
  }

  /** True when the factory accepts `a`. */
  predicate ArgsAccepted(a: ChunkingArgs) {
    && HardMax(a) > 0
    && (a.combineTextUnderNChars.None? || a.combineTextUnderNChars.value >= 0)
    && (a.newAfterNChars.None? || a.newAfterNChars.value >= 0)
    && (a.combineTextUnderNChars.None? || a.combineTextUnderNChars.value <= HardMax(a))
  }

  /** The validating factory (`_ByTitleChunkingOptions.new`): rejects invalid
      thresholds with the message the caller sees, otherwise derives the
      defaults so that `combineMax <= softMax <= hardMax`. */
  function New(a: ChunkingArgs): (r: Result<Options>)
    ensures r.Ok? <==> ArgsAccepted(a)
    ensures r.Ok? ==> Valid(r.value)
    ensures r.Ok? ==> r.value == Options(HardMax(a), SoftMax(a), CombineMax(a),
                                         MultipageSections(a), IncludeOrigElements(a))
  {
    var hard := HardMax(a);
    if hard <= 0 then
      Err("'max_characters' argument must be > 0, got " + IntToString(hard))
    else if CombineMax(a) < 0 then
      Err("'combine_text_under_n_chars' argument must be >= 0, got " + IntToString(CombineMax(a)))
    else if a.newAfterNChars.Some? && a.newAfterNChars.value < 0 then
      Err("'new_after_n_chars' argument must be >= 0, got " + IntToString(a.newAfterNChars.value))
    else if a.combineTextUnderNChars.Some? && a.combineTextUnderNChars.value > hard then
      Err("'combine_text_under_n_chars' argument must not exceed `max_characters` value, got "
          + IntToString(a.combineTextUnderNChars.value) + " > " + IntToString(hard))
    else
      Ok(Options(hard, SoftMax(a), CombineMax(a), MultipageSections(a), IncludeOrigElements(a)))
  }

  /** A negative `combine_text_under_n_chars` is rejected, naming the value. */
  lemma NewRejectsNegativeCombine(n: int)
    requires n < 0
    ensures New(ChunkingArgs(None, None, Some(n), None, None))
         == Err("'combine_text_under_n_chars' argument must be >= 0, got " + IntToString(n))
  {
  }

  /** The negative values of the test suite, with their exact messages. */
  lemma NewNegativeCombineMessages()
    ensures New(ChunkingArgs(None, None, Some(-1), None, None))
         == Err("'combine_text_under_n_chars' argument must be >= 0, got " + "-1")
    ensures New(ChunkingArgs(None, None, Some(-42), None, None))
         == Err("'combine_text_under_n_chars' argument must be >= 0, got " + "-42")
  {
    assert IntToString(-1) == "-1";
    assert NatToString(42) == "42" by { assert NatToString(4) == "4"; }
  }

  /** 600 above the default hard maximum, with its exact message. */
  lemma NewCombineAboveDefaultMessage()
    ensures New(ChunkingArgs(None, None, Some(600), None, None))
         == Err("'combine_text_under_n_chars' argument must not exceed `max_characters` value, got " + "600 > 500")
  {
    ThreeDigits();
    NewRejectsCombineAboveHardMax(600, None);
  }

  /** 600 above an explicit hard maximum of 450, with its exact message. */
  lemma NewCombineAboveGivenMessage()
    ensures New(ChunkingArgs(Some(450), None, Some(600), None, None))
         == Err("'combine_text_under_n_chars' argument must not exceed `max_characters` value, got " + "600 > 450")
  {
    ThreeDigits();
    NewRejectsCombineAboveHardMax(600, Some(450));
  }

  lemma ThreeDigits()
    ensures IntToString(600) == "600" && IntToString(500) == "500" && IntToString(450) == "450"
  {
    assert NatToString(6) == "6" && NatToString(60) == "60";
    assert NatToString(5) == "5" && NatToString(50) == "50";
    assert NatToString(4) == "4" && NatToString(45) == "45";
  }

  /** An explicit `combine_text_under_n_chars` above the effective hard
      maximum is an error, whether the hard maximum is given or defaulted. */
  lemma NewRejectsCombineAboveHardMax(c: int, m: Option<int>)
    requires m.None? || m.value > 0
    requires c > m.GetOr(ChunkMaxCharsDefault)
    ensures New(ChunkingArgs(m, None, Some(c), None, None))
         == Err("'combine_text_under_n_chars' argument must not exceed `max_characters` value, got "
                + IntToString(c) + " > " + IntToString(m.GetOr(ChunkMaxCharsDefault)))
  {
  }

  /** Any combine value from 0 to the hard maximum is accepted on its own and
      kept as given; 0 is how combining is switched off. */
  lemma NewKeepsCombineByItself(c: int)
    requires 0 <= c <= ChunkMaxCharsDefault
    ensures New(ChunkingArgs(None, None, Some(c), None, None))
         == Ok(Options(ChunkMaxCharsDefault, ChunkMaxCharsDefault, c, ChunkMultiPageDefault, true))
  {
  }

  /** `new_after_n_chars` alone sets the soft maximum and pulls the defaulted
      combine threshold down to it. */
  lemma NewAfterAloneClampsCombine(n: int)
    requires 0 <= n <= ChunkMaxCharsDefault
    ensures New(ChunkingArgs(None, Some(n), None, None, None))
         == Ok(Options(ChunkMaxCharsDefault, n, n, ChunkMultiPageDefault, true))
  {
  }

  /** `max_characters` alone makes every default threshold follow it. */
  lemma NewMaxCharactersAlone(m: int)
    requires m > 0
    ensures New(ChunkingArgs(Some(m), None, None, None, None))
         == Ok(Options(m, m, m, ChunkMultiPageDefault, true))
  {
  }

  /** The flags: an explicit value is kept, None or unset gives the default. */
  lemma NewFlagDefaults(mp: Option<bool>, inc: Option<bool>)
    ensures New(ChunkingArgs(None, None, None, mp, inc)).Ok?
    ensures New(ChunkingArgs(None, None, None, mp, inc)).value.multipageSections
         == (if mp.Some? then mp.value else ChunkMultiPageDefault)
    ensures New(ChunkingArgs(None, None, None, mp, inc)).value.includeOrigElements
         == (inc.None? || inc.value)
  {
  }
}
