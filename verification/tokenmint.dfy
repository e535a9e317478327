/** The fungible-token modal: four text fields, the validators and the
    supply derivation recomputed from them on every render, and the submit
    handler that guards, calls the ledger client once and reports the outcome. */
module TokenMint {
  import opened Text
  import opened Interfaces
  import Home

  /** (1 << 64) - 1, the largest total an asset may have. */
  const Uint64Max: nat := 0xFFFF_FFFF_FFFF_FFFF

  /** The largest decimals value the ledger's asset model supports. */
  const MaxDecimals: nat := 19

  const TooLargeMsg: string := "Total supply is too large for the selected decimals."
  const InvalidNumbersMsg: string := "Invalid numbers provided."
  const FixFormErrors: string := "Please fix the form errors before minting."
  const PreparingToken: string := "Preparing token creation\U{2026}"
  const TokenSubmitted: string := "Token creation submitted!"
  const TokenFailed: string := "Failed to create token. Please try again."

  /** `isNonEmpty`: some character is not whitespace. */
  function IsNonEmpty(s: string): (b: bool)
    ensures b <==> exists i | 0 <= i < |s| :: !IsWhitespace(s[i])
  {
    TrimEmptyIffBlank(s);
    |Trim(s)| > 0
  }

  /** `isNonNegInt`: one or more ASCII digits and nothing else. */
  function IsNonNegInt(s: string): (b: bool)
    ensures b <==> |s| > 0 && AllDigits(s)
  {
    MatchesDigitRun(s)
  }

  /** `decimalsValid`: a digit string whose value lies in [0, 19]. */
  function DecimalsValid(decimals: string): (b: bool)
    ensures b <==> |decimals| > 0 && AllDigits(decimals) && DigitsValue(decimals) <= MaxDecimals
  {
    IsNonNegInt(decimals) && DigitsValue(decimals) <= MaxDecimals
  }

  /** `totalValid`: the supply is a non-empty run of ASCII digits. */
  function TotalValid(totalSupply: string): (b: bool)
    ensures b <==> |totalSupply| > 0 && AllDigits(totalSupply)
  {
    IsNonNegInt(totalSupply)
  }

  /** `namesValid`: each name has a character that is not whitespace. */
  function NamesValid(assetName: string, unitName: string): (b: bool)
    ensures b <==> (exists i | 0 <= i < |assetName| :: !IsWhitespace(assetName[i]))
                   && (exists i | 0 <= i < |unitName| :: !IsWhitespace(unitName[i]))
  {
    IsNonEmpty(assetName) && IsNonEmpty(unitName)
  }

  /** `BigInt(s)` on the strings the validators admit. A digit string parses to
      its value; any other string is reported as a parse failure. */
  function ParseBigInt(s: string): (r: Option<nat>)
    ensures r.Some? <==> AllDigits(s)
    ensures r.Some? ==> r.value < Pow(10, |s|)
  {
    if AllDigits(s) then Some(DigitsValue(s)) else None
  }

  /** `BigInt("019")` is `BigInt("19")`: a leading zero never changes the parse. */
  lemma ParseBigIntLeadingZero(s: string)
    requires AllDigits(s)
    ensures ParseBigInt(['0'] + s) == ParseBigInt(s) == Some(DigitsValue(s))
  {
    LeadingZeroIgnored(s);
  }

  /** The values computed on each render: `onChainTotal`, `decimalsBig` and `rangeError`. */
  datatype Derivation = Derivation(onChainTotal: Option<nat>, decimalsBig: Option<nat>, rangeError: string)

  /** The try/catch block that scales the supply by 10^decimals with exact
      integers and checks the result against the uint64 bound. */
  function Derive(totalSupply: string, decimals: string): (d: Derivation)
    ensures d.onChainTotal.Some? <==> TotalValid(totalSupply) && DecimalsValid(decimals)
    ensures d.onChainTotal.Some? ==>
              d.onChainTotal.value == DigitsValue(totalSupply) * Pow(10, DigitsValue(decimals))
              && d.decimalsBig == Some(DigitsValue(decimals)) && d.decimalsBig.value <= MaxDecimals
    ensures d.rangeError != "" <==> d.onChainTotal.Some? && d.onChainTotal.value > Uint64Max
    ensures d.rangeError != InvalidNumbersMsg
  {
    if TotalValid(totalSupply) && DecimalsValid(decimals) then
      match (ParseBigInt(totalSupply), ParseBigInt(decimals))
      case (Some(totalBig), Some(decimalsBig)) =>
        var total := totalBig * Pow(10, decimalsBig);
        Derivation(Some(total), Some(decimalsBig), if total > Uint64Max then TooLargeMsg else "")
      case _ =>
        Derivation(None, None, InvalidNumbersMsg)
    else
      Derivation(None, None, "")
  }

  /** The four fields of the form. */
  datatype TokenFields = TokenFields(assetName: string, unitName: string, totalSupply: string, decimals: string)

  /** `formValid`: names present, both numbers well formed, the scaled total in
      range, and a wallet connected. A valid form always has a total to send. */
  function FormValid(f: TokenFields, w: Wallet): (b: bool)
    ensures b ==> Connected(w) && IsNonEmpty(f.assetName) && IsNonEmpty(f.unitName)
    ensures b ==> var d := Derive(f.totalSupply, f.decimals);
                  d.onChainTotal.Some? && d.onChainTotal.value <= Uint64Max
                  && d.decimalsBig.Some? && d.decimalsBig.value <= MaxDecimals
    ensures (Connected(w) && NamesValid(f.assetName, f.unitName)
             && Derive(f.totalSupply, f.decimals).onChainTotal.Some?
             && Derive(f.totalSupply, f.decimals).onChainTotal.value <= Uint64Max) ==> b
  {
    NamesValid(f.assetName, f.unitName) && TotalValid(f.totalSupply) && DecimalsValid(f.decimals)
    && Derive(f.totalSupply, f.decimals).rangeError == ""
    && w.transactionSigner.Some? && Truthy(w.activeAddress)
  }

  /** What `handleCreate` does for the given fields, wallet and call outcome.
      The wallet check comes first; an invalid form or a zero total stops before
      any call; otherwise exactly one request is made, carrying the connected
      address, the scaled total within (0, 2^64 - 1] and the decimals within
      [0, 19], and the outcome decides the notice and whether the modal closes. */
  function CreateSubmission(f: TokenFields, w: Wallet, outcome: CallOutcome): (s: Submission)
    ensures !Connected(w) ==> s == Submission([Notice(Warning, ConnectWalletFirst)], None, false)
    ensures s.request.None? ==> |s.notices| == 1 && s.notices[0].variant == Warning && !s.succeeded
    ensures Connected(w) && s.request.None? ==> s.notices == [Notice(Warning, FixFormErrors)]
    ensures s.request.Some? <==>
              Connected(w) && FormValid(f, w) && Derive(f.totalSupply, f.decimals).onChainTotal != Some(0)
    ensures s.request.Some? ==>
              var r := s.request.value;
              Some(r.sender) == w.activeAddress && Some(r.signer) == w.transactionSigner
              && 0 < r.total <= Uint64Max
              && r.total == DigitsValue(f.totalSupply) * Pow(10, DigitsValue(f.decimals))
              && r.decimals == DigitsValue(f.decimals) <= MaxDecimals
              && r.assetName == f.assetName && r.unitName == f.unitName
              && r.url.None? && r.metadataHash.None? && !r.defaultFrozen
    ensures s.request.Some? ==>
              |s.notices| == 2 && s.notices[0] == Notice(Info, PreparingToken)
              && s.notices[1] == OutcomeNotice(outcome, TokenSubmitted, TokenFailed)
    ensures s.succeeded <==> s.request.Some? && outcome.Resolved?
  {
    if !Connected(w) then
      Submission([Notice(Warning, ConnectWalletFirst)], None, false)
    else
      var d := Derive(f.totalSupply, f.decimals);
      if !FormValid(f, w) || d.onChainTotal.None? || d.onChainTotal.value == 0 || d.decimalsBig.None? then
        Submission([Notice(Warning, FixFormErrors)], None, false)
      else
        var request := AssetCreateParams(
          w.activeAddress.value, w.transactionSigner.value, d.onChainTotal.value, d.decimalsBig.value,
          f.assetName, f.unitName, None, None, false);
        Submission([Notice(Info, PreparingToken), OutcomeNotice(outcome, TokenSubmitted, TokenFailed)], Some(request), outcome.Resolved?)
  }

  /** The modal's local state. `home` is the page whose `setOpenTokenModal`
      the modal receives as `setModalState`; `notices` is what it has enqueued
      on the snackbar and `submitted` what it has handed to the ledger client. */
  class TokenMintModal {
    var assetName: string
    var unitName: string
    var totalSupply: string
    var decimals: string
    var loading: bool
    var notices: seq<Notice>
    var submitted: seq<AssetCreateParams>
    const home: Home.HomeState

    /** The numeric fields are stored trimmed. */
    ghost predicate Valid()
      reads this
    {
      IsTrimmed(totalSupply) && IsTrimmed(decimals)
    }

    function Fields(): TokenFields
      reads this
    {
      TokenFields(assetName, unitName, totalSupply, decimals)
    }

    /** The form opens with the defaults "MasterPass Token", "MPT", "1000000" and "0". */
    constructor (home: Home.HomeState)
      ensures Valid()
      ensures Fields() == TokenFields("MasterPass Token", "MPT", "1000000", "0")
      ensures !loading && notices == [] && submitted == [] && this.home == home
    {
      assetName, unitName, totalSupply, decimals := "MasterPass Token", "MPT", "1000000", "0";
      loading, notices, submitted := false, [], [];
      this.home := home;
    }

    /** The name fields store what was typed, untrimmed. */
    method SetAssetName(value: string)
      modifies this`assetName
      ensures assetName == value
    {
      assetName := value;
    }

    method SetUnitName(value: string)
      modifies this`unitName
      ensures unitName == value
    {
      unitName := value;
    }

    /** The numeric fields store what was typed, trimmed. */
    method SetTotalSupply(value: string)
      requires Valid()
      modifies this`totalSupply
      ensures Valid() && totalSupply == Trim(value)
    {
      totalSupply := Trim(value);
    }

    method SetDecimals(value: string)
      requires Valid()
      modifies this`decimals
      ensures Valid() && decimals == Trim(value)
    {
      decimals := Trim(value);
    }

    /** The Close button: closes the token modal and changes nothing else. */
    method Close()
      modifies home
      ensures home.Flags() == Home.WithFlag(old(home.Flags()), Home.TokenModal, false)
    {
      home.SetOpenTokenModal(false);
    }

    /** `handleCreate`, with the awaited ledger call resolved as `outcome`.
        The fields are never changed (there is no reset, whatever the outcome);
        the notices and the request are those of CreateSubmission; the token
        modal closes on success only; `loading` ends false once a call was made
        and is untouched when a guard returned early. */
    method HandleCreate(w: Wallet, outcome: CallOutcome)
      requires Valid()
      modifies this, home
      ensures Valid() && Fields() == old(Fields())
      ensures var s := CreateSubmission(old(Fields()), w, outcome);
              && notices == old(notices) + s.notices
              && submitted == old(submitted) + Calls(s)
              && home.Flags() == (if s.succeeded then Home.WithFlag(old(home.Flags()), Home.TokenModal, false)
                                  else old(home.Flags()))
              && loading == (if s.request.Some? then false else old(loading))
    {
      ghost var spec := CreateSubmission(Fields(), w, outcome);
      if !(w.transactionSigner.Some? && Truthy(w.activeAddress)) {
        assert spec == Submission([Notice(Warning, ConnectWalletFirst)], None, false);
        notices := notices + [Notice(Warning, ConnectWalletFirst)];
        return;
      }
      var d := Derive(totalSupply, decimals);
      if !FormValid(Fields(), w) || d.onChainTotal.None? || d.onChainTotal.value == 0 || d.decimalsBig.None? {
        assert spec == Submission([Notice(Warning, FixFormErrors)], None, false);
        notices := notices + [Notice(Warning, FixFormErrors)];
        return;
      }
      var request := AssetCreateParams(
        w.activeAddress.value, w.transactionSigner.value, d.onChainTotal.value, d.decimalsBig.value,
        assetName, unitName, None, None, false);
      assert spec == Submission([Notice(Info, PreparingToken), OutcomeNotice(outcome, TokenSubmitted, TokenFailed)],
                                Some(request), outcome.Resolved?);
      Send(request, outcome);
    }

    /** The `try` block of `handleCreate`: mark loading, announce, make the one
        call, report its outcome (closing the modal on success), clear loading. */
    method Send(request: AssetCreateParams, outcome: CallOutcome)
      requires Valid()
      modifies this, home
      ensures Valid() && Fields() == old(Fields())
      ensures notices == old(notices) + [Notice(Info, PreparingToken), OutcomeNotice(outcome, TokenSubmitted, TokenFailed)]
      ensures submitted == old(submitted) + [request]
      ensures home.Flags() == (if outcome.Resolved? then Home.WithFlag(old(home.Flags()), Home.TokenModal, false)
                               else old(home.Flags()))
      ensures !loading
    {
      loading := true;
      notices := notices + [Notice(Info, PreparingToken)];
      submitted := submitted + [request];
      match outcome {
        case Resolved(txIds) =>
          notices := notices + [Notice(Success, SubmittedMessage(TokenSubmitted, FirstTxId(txIds)))];
          home.SetOpenTokenModal(false);
        case Rejected =>
          notices := notices + [Notice(Error, TokenFailed)];
      }
      loading := false;
    }
  }

  /** The Create Token button is enabled exactly while the form is valid and
      no call is in flight. */
  function SubmitEnabled(f: TokenFields, w: Wallet, loading: bool): (b: bool)
    ensures b <==> Connected(w) && NamesValid(f.assetName, f.unitName)
                   && Derive(f.totalSupply, f.decimals).onChainTotal.Some?
                   && Derive(f.totalSupply, f.decimals).onChainTotal.value <= Uint64Max
                   && !loading
  {
    FormValid(f, w) && !loading
  }

  /** A supply of zero passes every validator, so the button is enabled, yet
      submitting it only warns: no request is ever made for a zero total. */
  lemma ZeroSupplyEnabledButNeverSent(f: TokenFields, w: Wallet, outcome: CallOutcome)
    requires AllDigits(f.totalSupply) && DigitsValue(f.totalSupply) == 0
    ensures CreateSubmission(f, w, outcome).request.None?
    ensures (Connected(w) && IsNonEmpty(f.assetName) && IsNonEmpty(f.unitName)
             && f.totalSupply == "0" && f.decimals == "0") ==> SubmitEnabled(f, w, false)
  {
    if Connected(w) && IsNonEmpty(f.assetName) && IsNonEmpty(f.unitName) && f.totalSupply == "0" && f.decimals == "0" {
      DeriveZeroDecimals("0");
    }
  }

  /** `isNonNegInt` accepts leading zeros and rejects the empty string, signs and decimal points. */
  lemma NonNegIntExamples()
    ensures IsNonNegInt("007") && IsNonNegInt("0")
    ensures !IsNonNegInt("") && !IsNonNegInt("-1") && !IsNonNegInt("1.5") && !IsNonNegInt(" 1")
  {
    assert "-1"[0] == '-';
    assert "1.5"[1] == '.';
    assert " 1"[0] == ' ';
  }

  /** `isNonEmpty` rejects a string of blanks and accepts one with a visible character. */
  lemma NonEmptyExamples()
    ensures !IsNonEmpty("") && !IsNonEmpty(" \t\n") && IsNonEmpty("  MPT ")
  {
    assert "  MPT "[2] == 'M';
    assert !IsWhitespace('M');
    assert forall i | 0 <= i < |" \t\n"| :: IsWhitespace(" \t\n"[i]) by {
      assert " \t\n"[0] == ' ' && " \t\n"[1] == '\t' && " \t\n"[2] == '\n';
    }
  }

  /** "19" and "019" are valid decimals; "20" and "-1" are not. */
  lemma DecimalsExamples()
    ensures DecimalsValid("19") && DecimalsValid("019") && DecimalsValid("0")
    ensures !DecimalsValid("20") && !DecimalsValid("-1") && !DecimalsValid("")
  {
    LeadingZeroIgnored("19");
    assert ['0'] + "19" == "019";
    assert "-1"[0] == '-';
  }

  /** Whether the derived total is in range depends on the values alone, not on
      how many leading zeros either field carries. */
  lemma {:induction false} DeriveIgnoresLeadingZeros(totalSupply: string, decimals: string)
    requires |totalSupply| > 0 && AllDigits(totalSupply)
    ensures Derive(['0'] + totalSupply, decimals) == Derive(totalSupply, decimals)
    ensures |decimals| > 0 && AllDigits(decimals) ==>
              Derive(totalSupply, ['0'] + decimals) == Derive(totalSupply, decimals)
  {
    LeadingZeroIgnored(totalSupply);
    if |decimals| > 0 && AllDigits(decimals) {
      LeadingZeroIgnored(decimals);
    }
  }

  /** With no decimals the on-chain total is the supply itself; the bound is
      inclusive, so 2^64 - 1 passes and 2^64 is rejected. */
  lemma DeriveZeroDecimals(totalSupply: string)
    requires |totalSupply| > 0 && AllDigits(totalSupply)
    ensures Derive(totalSupply, "0").onChainTotal == Some(DigitsValue(totalSupply))
    ensures DigitsValue(totalSupply) == Uint64Max ==> Derive(totalSupply, "0").rangeError == ""
    ensures DigitsValue(totalSupply) == Uint64Max + 1 ==> Derive(totalSupply, "0").rangeError == TooLargeMsg
  {
    assert DigitsValue("0") == 0 by {
      assert "0"[..0] == [];
    }
    assert Pow(10, DigitsValue("0")) == 1;
    assert DecimalsValid("0");
  }

  /** The default form derives a total of one million with no error. */
  lemma DeriveDefaultForm()
    ensures Derive("1000000", "0") == Derivation(Some(1_000_000), Some(0), "")
  {
    DigitsValueAppend("1", "000000");
    assert "1" + "000000" == "1000000";
    DigitsValueAppend("000", "000");
    assert "000" + "000" == "000000";
    DeriveZeroDecimals("1000000");
  }

  /** 10^19 is below 2^64 - 1, so one whole token at 19 decimals is accepted;
      two whole tokens at 19 decimals exceed the bound. */
  lemma DeriveNineteenDecimals()
    ensures Derive("1", "19") == Derivation(Some(10_000_000_000_000_000_000), Some(19), "")
    ensures Derive("2", "19").rangeError == TooLargeMsg
  {
    assert DigitsValue("19") == 19 by {
      assert "19"[..1] == "1";
    }
    assert Pow(10, 10) == 10_000_000_000;
    assert Pow(10, 19) == 10_000_000_000_000_000_000;
  }

  /** Out-of-range decimals yield no total and no range error: the field's own
      validator reports it. */
  lemma DeriveRejectsTwentyDecimals()
    ensures Derive("1", "20") == Derivation(None, None, "")
  {
  }
}
