/** The on-chain identity form: it validates the four identity fields, builds
    the identity-info record, prices the submission (gas, bond, registrar fee,
    deposit) and chooses and submits the extrinsic, directly or through a proxy. */
module IdentityForm {
  import opened Wrappers
  import opened Text
  import opened IdentityValidation

  /** The values the form's four inputs hold. */
  datatype FormValues = FormValues(displayName: string, legalName: string, email: string, twitter: string)

  /** What a previous on-chain judgement already verified (`IVerifiedFields`);
      a missing field is `None`. */
  datatype VerifiedFields = VerifiedFields(
    alreadyVerified: bool,
    isIdentitySet: bool,
    displayName: Option<string>,
    legalName: Option<string>,
    email: Option<string>,
    twitter: Option<string>)

  /** The fee parts, in the chain's smallest unit. */
  datatype TxFee = TxFee(gasFee: nat, bondFee: nat, registrarFee: nat, minDeposit: nat)

  /** One field of the identity info: `{ raw: value }` or `{ none: value }`. */
  datatype Tag = RawTag | NoneTag
  datatype Data = Data(tag: Tag, value: Option<string>)

  /** The identity-info record; `NoInfo` is the form's initial `{}`. */
  datatype IdentityInfo = NoInfo | Info(display: Data, email: Data, legal: Data, twitter: Data)

  /** The extrinsics the form builds. */
  datatype Call =
    | SetIdentity(info: IdentityInfo)
    | RequestJudgement(registrarIndex: nat, maxFee: nat)
    | BatchAll(calls: seq<Call>)
    | Proxy(realAddress: string, call: Call)

  /** A fee estimate request: the call and the address whose payment info is asked for. */
  datatype Estimate = Estimate(call: Call, signer: string)

  /** What the form hands to the transaction executor. */
  datatype Submission = Submission(address: string, tx: Call, proxyAddress: Option<string>)

  /** The parent's loading overlay. */
  datatype LoadingState = LoadingState(isLoading: bool, message: string)

  /** A value kept in the `identityForm` local-storage record; a social
      field is kept as its whole record (`{ ...email, value }`). */
  datatype StoredValue =
    | StoredBool(b: bool)
    | StoredString(s: string)
    | StoredRecord(fields: map<string, StoredValue>)

  /** The four inputs of the form. */
  datatype FormField = DisplayNameField | LegalNameField | EmailField | TwitterField
  {
    predicate IsSocial() { this == EmailField || this == TwitterField }

    /** The input's name, which is also its key in the stored record. */
    function Key(): string {
      match this
      case DisplayNameField => "displayName"
      case LegalNameField => "legalName"
      case EmailField => "email"
      case TwitterField => "twitter"
    }
  }

  function FieldOf(f: FormValues, field: FormField): string {
    match field
    case DisplayNameField => f.displayName
    case LegalNameField => f.legalName
    case EmailField => f.email
    case TwitterField => f.twitter
  }

  /** The form with one input holding a new value and the others unchanged. */
  function WithField(f: FormValues, field: FormField, v: string): (r: FormValues)
    ensures FieldOf(r, field) == v
    ensures forall other: FormField :: other != field ==> FieldOf(r, other) == FieldOf(f, other)
  {
    match field
    case DisplayNameField => f.(displayName := v)
    case LegalNameField => f.(legalName := v)
    case EmailField => f.(email := v)
    case TwitterField => f.(twitter := v)
  }

  /** Distinct inputs are stored under distinct keys. */
  lemma KeysDistinct(a: FormField, b: FormField)
    requires a.Key() == b.Key()
    ensures a == b
  {
    assert |"email"| != |"legalName"| && |"email"| != |"twitter"| && |"email"| != |"displayName"|;
    assert |"legalName"| != |"twitter"| && |"legalName"| != |"displayName"| && |"twitter"| != |"displayName"|;
  }

  /** What a change handler stores for its input: a name as the trimmed
      string, a social as its record with `value` set to the trimmed string. */
  function StoredFor(field: FormField, trimmed: string, record: map<string, StoredValue>): (r: StoredValue)
    ensures !field.IsSocial() ==> r == StoredString(trimmed)
    ensures field.IsSocial() ==>
              && r.StoredRecord? && r.fields.Keys == record.Keys + {"value"}
              && r.fields["value"] == StoredString(trimmed)
              && forall k :: k in record && k != "value" ==> r.fields[k] == record[k]
  {
    if field.IsSocial() then StoredRecord(record["value" := StoredString(trimmed)]) else StoredString(trimmed)
  }

  /** The chain node, seen as a capability whose answers the model does not fix. */
  datatype Chain = Chain(
    /** delegates of `proxy.proxies(address)`, `None` when the query gives nothing */
    proxiesOf: string -> Option<seq<string>>,
    /** `identityOf(address)` unwrapped to the hex of its info hash; `None`
        when the identity is absent or the query is rejected */
    identityHashOf: string -> Option<string>,
    /** `paymentInfo(signer).partialFee` of a call; `None` when the query is rejected */
    partialFee: (Call, string) -> Option<nat>)

  function Trimmed(f: FormValues): FormValues {
    FormValues(Trim(f.displayName), Trim(f.legalName), Trim(f.email), Trim(f.twitter))
  }

  /** The four per-field checks of `handleInfo`. */
  datatype Validity = Validity(display: bool, legal: bool, email: bool, twitter: bool)

  function Validate(t: FormValues): Validity {
    Validity(OkName(t.displayName), OkName(t.legalName), OkEmail(t.email), OkTwitter(t.twitter))
  }

  /** Email, legal name and twitter: `raw` with the value when it is valid
      and non-empty, otherwise `none` with null. */
  function FieldData(ok: bool, v: string): (d: Data)
    ensures d.tag == RawTag <==> ok && v != ""
    ensures d.value == (if d.tag == RawTag then Some(v) else None)
  {
    if ok && v != "" then Data(RawTag, Some(v)) else Data(NoneTag, None)
  }

  /** The display name is tagged on its check alone and carries `value || null`. */
  function DisplayData(ok: bool, v: string): Data {
    Data(if ok then RawTag else NoneTag, if v != "" then Some(v) else None)
  }

  function BuildInfo(t: FormValues, ok: Validity): IdentityInfo {
    Info(DisplayData(ok.display, t.displayName), FieldData(ok.email, t.email),
         FieldData(ok.legal, t.legalName), FieldData(ok.twitter, t.twitter))
  }

  /** `okAll`: every check passes, the display name is longer than one
      character, and email and twitter are filled in. */
  predicate OkAll(t: FormValues, ok: Validity) {
    ok.display && ok.email && ok.legal && ok.twitter
    && |t.displayName| > 1 && t.email != "" && t.twitter != ""
  }

  /** A social field counts for the bond when it is valid, filled in and not
      the value a judgement already verified. */
  predicate IsNewSocial(ok: bool, v: string, verified: Option<string>) {
    ok && v != "" && verified != Some(v)
  }

  /** `okSocials`: 1 plus one per new social field. */
  function CountSocials(t: FormValues, ok: Validity, verified: VerifiedFields): nat {
    1 + (if IsNewSocial(ok.email, t.email, verified.email) then 1 else 0)
      + (if IsNewSocial(ok.twitter, t.twitter, verified.twitter) then 1 else 0)
  }

  /** `okSocials === 1 ? 0 : perSocialBondFee * (okSocials - 1 || 1)`. */
  function BondFee(okSocials: nat, perSocialBondFee: nat): nat
    requires okSocials >= 1
  {
    if okSocials == 1 then 0
    else perSocialBondFee * (if okSocials - 1 == 0 then 1 else okSocials - 1)
  }

  /** What a judgement already verified for a social input (`None` for the names). */
  function VerifiedOf(verified: VerifiedFields, field: FormField): Option<string> {
    match field
    case EmailField => verified.email
    case TwitterField => verified.twitter
    case _ => None
  }

  /** An input's own check in `handleInfo`. */
  function CheckOf(ok: Validity, field: FormField): bool {
    match field
    case DisplayNameField => ok.display
    case LegalNameField => ok.legal
    case EmailField => ok.email
    case TwitterField => ok.twitter
  }

  /** The social inputs (email, twitter) that a judgement would newly verify,
      given the inputs' checks. */
  ghost function NewSocialsOf(t: FormValues, ok: Validity, verified: VerifiedFields): set<FormField> {
    set field | field in {EmailField, TwitterField}
                && IsNewSocial(CheckOf(ok, field), FieldOf(t, field), VerifiedOf(verified, field))
  }

  ghost function NewSocials(t: FormValues, verified: VerifiedFields): set<FormField> {
    NewSocialsOf(t, Validate(t), verified)
  }

  /** `okSocials` counts one plus each new social input. */
  lemma CountIsNewSocials(t: FormValues, ok: Validity, verified: VerifiedFields)
    ensures CountSocials(t, ok, verified) == 1 + |NewSocialsOf(t, ok, verified)| <= 3
  {
    var e := IsNewSocial(ok.email, t.email, verified.email);
    var w := IsNewSocial(ok.twitter, t.twitter, verified.twitter);
    var expected := (if e then {EmailField} else {}) + (if w then {TwitterField} else {});
    assert NewSocialsOf(t, ok, verified) == expected;
  }

  /** The bond is charged once per new social input: zero when neither is new. */
  lemma BondPerNewSocial(t: FormValues, verified: VerifiedFields, perSocialBondFee: nat)
    ensures BondFee(CountSocials(t, Validate(t), verified), perSocialBondFee)
            == perSocialBondFee * |NewSocials(t, verified)|
    ensures CountSocials(t, Validate(t), verified) == 1 + |NewSocials(t, verified)| <= 3
  {
    CountIsNewSocials(t, Validate(t), verified);
  }

  /** Filling in one more new social field never lowers the bond. */
  lemma BondMonotone(t: FormValues, u: FormValues, verified: VerifiedFields, perSocialBondFee: nat)
    requires IsNewSocial(Validate(t).email, t.email, verified.email)
             ==> IsNewSocial(Validate(u).email, u.email, verified.email)
    requires IsNewSocial(Validate(t).twitter, t.twitter, verified.twitter)
             ==> IsNewSocial(Validate(u).twitter, u.twitter, verified.twitter)
    ensures BondFee(CountSocials(t, Validate(t), verified), perSocialBondFee)
            <= BondFee(CountSocials(u, Validate(u), verified), perSocialBondFee)
  {
    BondPerNewSocial(t, verified, perSocialBondFee);
    BondPerNewSocial(u, verified, perSocialBondFee);
    assert CountSocials(t, Validate(t), verified) <= CountSocials(u, Validate(u), verified);
  }

  /** What one run of `handleInfo` computes from the form: the info record,
      `okAll` and the `okSocials` counter. */
  datatype Evaluation = Evaluation(info: IdentityInfo, okAll: bool, okSocials: nat)

  function Evaluate(f: FormValues, verified: VerifiedFields): (e: Evaluation)
    ensures e.okSocials == 1 + |NewSocials(Trimmed(f), verified)|
    ensures e.okAll ==> e.info.Info? && e.info.display.tag == RawTag
                        && e.info.email.tag == RawTag && e.info.twitter.tag == RawTag
  {
    var t := Trimmed(f);
    var ok := Validate(t);
    CountIsNewSocials(t, ok, verified);
    Evaluation(BuildInfo(t, ok), OkAll(t, ok), CountSocials(t, ok, verified))
  }

  /** `totalFee`: gas, bond and registrar fee, plus the minimum deposit unless
      the identity is already verified or already set. */
  function TotalFee(fee: TxFee, verified: VerifiedFields): (total: nat)
    ensures total >= fee.gasFee + fee.bondFee + fee.registrarFee
    ensures total - (fee.gasFee + fee.bondFee + fee.registrarFee)
            == if verified.alreadyVerified || verified.isIdentitySet then 0 else fee.minDeposit
  {
    fee.gasFee + (fee.bondFee + (fee.registrarFee
      + (if verified.alreadyVerified || verified.isIdentitySet then 0 else fee.minDeposit)))
  }

  /** The value an identity-info field sets, `""` when it sets none. */
  function Carried(d: Data): string {
    if d.tag == RawTag && d.value.Some? then d.value.value else ""
  }

  /** When the form is submittable, the info it sends carries exactly the
      four trimmed values, with display name, email and twitter all `raw`. */
  lemma InfoCarriesForm(t: FormValues)
    requires OkAll(t, Validate(t))
    ensures var info := BuildInfo(t, Validate(t));
            && info.display.tag == RawTag && info.email.tag == RawTag && info.twitter.tag == RawTag
            && Carried(info.display) == t.displayName && Carried(info.legal) == t.legalName
            && Carried(info.email) == t.email && Carried(info.twitter) == t.twitter
  {
  }

  /** Whatever is typed, the trimmed display name passes its check, so the
      display field is always `raw`; it carries null exactly when the name is empty. */
  lemma DisplayAlwaysRaw(f: FormValues)
    ensures BuildInfo(Trimmed(f), Validate(Trimmed(f))).display.tag == RawTag
    ensures BuildInfo(Trimmed(f), Validate(Trimmed(f))).display.value.None? <==> Trim(f.displayName) == ""
  {
    TrimmedNameOk(f.displayName);
  }

  /** On trimmed input `okAll` depends on the legal name not at all: it holds
      exactly when the display name is longer than one character, the email
      has three or more characters with an `@` and no blank or tab, and the
      twitter handle has three or more characters and no blank, tab or slash. */
  lemma OkAllMeaning(f: FormValues)
    ensures var t := Trimmed(f);
            OkAll(t, Validate(t)) <==>
              && |t.displayName| > 1
              && |t.email| >= 3 && '@' in t.email && ' ' !in t.email && '\t' !in t.email
              && |t.twitter| >= 3 && ' ' !in t.twitter && '\t' !in t.twitter && '/' !in t.twitter
  {
    var t := Trimmed(f);
    TrimmedNameOk(f.displayName);
    TrimmedNameOk(f.legalName);
    OkEmailMeaning(t.email);
    OkTwitterMeaning(t.twitter);
  }

  /** `handleAllowSetIdentity`: every trimmed field equals its verified value
      (true when nothing would change on chain). */
  predicate AllowSetIdentity(t: FormValues, verified: VerifiedFields) {
    && verified.displayName == Some(t.displayName)
    && verified.twitter == Some(t.twitter)
    && verified.email == Some(t.email)
    && verified.legalName == Some(t.legalName)
  }

  /** Only a judgement request is needed: twitter, email and display name were
      verified and nothing changed. */
  predicate JudgementOnly(t: FormValues, verified: VerifiedFields) {
    Present(verified.twitter) && Present(verified.email) && Present(verified.displayName)
    && AllowSetIdentity(t, verified)
  }

  /** The extrinsic `handleSetIdentity` submits. */
  function Plan(t: FormValues, verified: VerifiedFields, info: IdentityInfo,
                registrarIndex: nat, registrarFee: nat): (c: Call)
    ensures c.RequestJudgement? <==> JudgementOnly(t, verified)
    ensures !c.RequestJudgement? ==>
              c == BatchAll([SetIdentity(info), RequestJudgement(registrarIndex, registrarFee)])
  {
    var judgement := RequestJudgement(registrarIndex, registrarFee);
    if JudgementOnly(t, verified) then judgement else BatchAll([SetIdentity(info), judgement])
  }

  /** Every plan ends with a judgement request to the chosen registrar. */
  lemma PlanRequestsJudgement(t: FormValues, verified: VerifiedFields, info: IdentityInfo,
                              registrarIndex: nat, registrarFee: nat)
    ensures var c := Plan(t, verified, info, registrarIndex, registrarFee);
            c == RequestJudgement(registrarIndex, registrarFee)
            || (c.BatchAll? && |c.calls| == 2 && c.calls[1] == RequestJudgement(registrarIndex, registrarFee))
  {
  }

  /** Resubmitting exactly the verified values asks only for a judgement and
      costs no social bond. */
  lemma ResubmitVerified(t: FormValues, verified: VerifiedFields, info: IdentityInfo,
                         registrarIndex: nat, registrarFee: nat, perSocialBondFee: nat)
    requires t.displayName != "" && t.email != "" && t.twitter != ""
    requires verified.displayName == Some(t.displayName) && verified.legalName == Some(t.legalName)
    requires verified.email == Some(t.email) && verified.twitter == Some(t.twitter)
    ensures Plan(t, verified, info, registrarIndex, registrarFee) == RequestJudgement(registrarIndex, registrarFee)
    ensures BondFee(CountSocials(t, Validate(t), verified), perSocialBondFee) == 0
  {
  }

  /** The address that signs: the selected proxy when one is selected and the
      proxy selector is shown, otherwise the owner. */
  predicate UsesProxy(selectedProxy: string, showProxyDropdown: bool) {
    selectedProxy != "" && showProxyDropdown
  }

  /** `getGasFee`'s request: none (and a zero gas fee) when the api is not
      ready, when the form is not submittable outside the initial load, or
      when display name, email or twitter is empty; otherwise `setIdentity`
      of the current info, wrapped in a proxy call when a proxy signs. */
  function GasEstimate(apiReady: bool, okAll: bool, initialLoading: bool, form: FormValues,
                       info: IdentityInfo, address: string, selectedProxy: string,
                       showProxyDropdown: bool): (e: Option<Estimate>)
    ensures e.None? <==> !apiReady || (!okAll && !initialLoading)
                         || form.displayName == "" || form.email == "" || form.twitter == ""
    ensures e.Some? && UsesProxy(selectedProxy, showProxyDropdown) ==>
              e.value == Estimate(Proxy(address, SetIdentity(info)), selectedProxy)
    ensures e.Some? && !UsesProxy(selectedProxy, showProxyDropdown) ==>
              e.value == Estimate(SetIdentity(info), address)
  {
    if !apiReady || (!okAll && !initialLoading)
       || form.displayName == "" || form.email == "" || form.twitter == "" then None
    else if UsesProxy(selectedProxy, showProxyDropdown) then
      Some(Estimate(Proxy(address, SetIdentity(info)), selectedProxy))
    else Some(Estimate(SetIdentity(info), address))
  }

  /** The gas fee an estimate yields: zero when nothing was asked, `None`
      when the chain rejects the payment-info query. */
  function GasOf(chain: Chain, e: Option<Estimate>): Option<nat> {
    match e
    case None => Some(0)
    case Some(est) => chain.partialFee(est.call, est.signer)
  }

  /** An empty display name never reaches the chain and prices gas at zero. */
  lemma EmptyDisplayNoEstimate(chain: Chain, apiReady: bool, okAll: bool, initialLoading: bool,
                               form: FormValues, info: IdentityInfo, address: string,
                               selectedProxy: string, showProxyDropdown: bool)
    requires form.displayName == ""
    ensures GasEstimate(apiReady, okAll, initialLoading, form, info, address, selectedProxy, showProxyDropdown).None?
    ensures GasOf(chain, GasEstimate(apiReady, okAll, initialLoading, form, info, address, selectedProxy, showProxyDropdown)) == Some(0)
  {
  }

  /** What `handleSetIdentity` submits: nothing when the api is not ready, the
      form is not submittable or the network has no registrar; otherwise the
      plan, signed by the owner and routed through the proxy when one is used. */
  function SubmissionFor(apiReady: bool, okAll: bool, registrarIndex: Option<nat>,
                         t: FormValues, verified: VerifiedFields, info: IdentityInfo,
                         registrarFee: nat, address: string, selectedProxy: string,
                         showProxyDropdown: bool): (s: Option<Submission>)
    ensures s.None? <==> !apiReady || !okAll || registrarIndex.None?
    ensures s.Some? ==> s.value.address == address
                        && s.value.tx == Plan(t, verified, info, registrarIndex.value, registrarFee)
                        && (s.value.proxyAddress.Some? <==> UsesProxy(selectedProxy, showProxyDropdown))
                        && (s.value.proxyAddress.Some? ==> s.value.proxyAddress.value == selectedProxy)
  {
    if !apiReady || !okAll || registrarIndex.None? then None
    else
      var tx := Plan(t, verified, info, registrarIndex.value, registrarFee);
      Some(Submission(address, tx, if UsesProxy(selectedProxy, showProxyDropdown) then Some(selectedProxy) else None))
  }

  /** The read-merge-write of `handleLocalStorageSave`: the stored record
      (empty when absent) with the given keys written over it. */
  function Merge(stored: Option<map<string, StoredValue>>, field: map<string, StoredValue>): (m: map<string, StoredValue>)
    ensures m.Keys == (if stored.Some? then stored.value.Keys else {}) + field.Keys
    ensures forall k :: k in field ==> m[k] == field[k]
    ensures forall k :: stored.Some? && k in stored.value && k !in field ==> m[k] == stored.value[k]
  {
    (if stored.Some? then stored.value else map[]) + field
  }

  /** Whether the "Set Identity" button is disabled. */
  predicate SetIdentityDisabled(okAll: bool, loading: bool, availableBalance: Option<nat>, totalFee: nat,
                                gasFee: nat, allowSetIdentity: bool, proxyAddresses: seq<string>,
                                showProxyDropdown: bool, isProxyExistsOnWallet: bool)
  {
    !okAll || loading || (availableBalance.Some? && availableBalance.value <= totalFee)
    || gasFee == 0 || allowSetIdentity
    || (|proxyAddresses| > 0 && showProxyDropdown && !isProxyExistsOnWallet)
  }

  /** An enabled "Set Identity" button means a submittable form, a positive gas
      estimate, a balance above the total fee (or not yet known), a changed
      identity, and a usable proxy whenever the proxy selector is shown. */
  lemma EnabledMeans(okAll: bool, loading: bool, availableBalance: Option<nat>, totalFee: nat,
                     gasFee: nat, allowSetIdentity: bool, proxyAddresses: seq<string>,
                     showProxyDropdown: bool, isProxyExistsOnWallet: bool)
    requires !SetIdentityDisabled(okAll, loading, availableBalance, totalFee, gasFee, allowSetIdentity,
                                  proxyAddresses, showProxyDropdown, isProxyExistsOnWallet)
    ensures okAll && !loading && gasFee > 0 && !allowSetIdentity
    ensures availableBalance.Some? ==> availableBalance.value > totalFee
    ensures showProxyDropdown && proxyAddresses != [] ==> isProxyExistsOnWallet
  {
  }

  /** The form's state: its own React state, and the parent state it drives
      through callbacks (`txFee`, the loading overlay, the identity hash). */
  class IdentityFormState {
    const address: string
    const perSocialBondFee: nat
    const verified: VerifiedFields

    var form: FormValues
    var info: IdentityInfo
    var okAll: bool
    var txFee: TxFee
    var loading: bool
    var availableBalance: Option<nat>
    var proxyAddresses: seq<string>
    var selectedProxyAddress: string
    var showProxyDropdown: bool
    var isProxyExistsOnWallet: bool
    /** the `identityForm` local-storage record; `None` while nothing is stored */
    var store: Option<map<string, StoredValue>>
    var startLoading: LoadingState
    var successOpen: bool
    var modalClosed: bool
    var identityHash: string
    var isIdentityCallDone: bool
    /** identity hashes sent to the save-identity-hash endpoint, oldest first */
    var savedHashes: seq<string>

    /** A submittable form always holds an info record whose display name,
        email and twitter are set. */
    ghost predicate Valid()
      reads this`okAll, this`info
    {
      okAll ==> info.Info? && info.display.tag == RawTag && info.email.tag == RawTag && info.twitter.tag == RawTag
    }

    constructor (address: string, perSocialBondFee: nat, verified: VerifiedFields,
                 form: FormValues, txFee: TxFee, store: Option<map<string, StoredValue>>)
      ensures Valid()
      ensures this.address == address && this.perSocialBondFee == perSocialBondFee && this.verified == verified
      ensures this.form == form && this.txFee == txFee && this.store == store
      ensures info == NoInfo && !okAll && !loading && availableBalance == None
      ensures proxyAddresses == [] && selectedProxyAddress == "" && !showProxyDropdown && isProxyExistsOnWallet
      ensures startLoading == LoadingState(false, "") && !successOpen && !modalClosed
      ensures identityHash == "" && !isIdentityCallDone && savedHashes == []
    {
      this.address := address;
      this.perSocialBondFee := perSocialBondFee;
      this.verified := verified;
      this.form := form;
      this.txFee := txFee;
      this.store := store;
      info := NoInfo;
      okAll := false;
      loading := false;
      availableBalance := None;
      proxyAddresses := [];
      selectedProxyAddress := "";
      showProxyDropdown := false;
      isProxyExistsOnWallet := true;
      startLoading := LoadingState(false, "");
      successOpen := false;
      modalClosed := false;
      identityHash := "";
      isIdentityCallDone := false;
      savedHashes := [];
    }

    /** `totalFee` of the current fee parts. */
    function Total(): nat
      reads this
    {
      TotalFee(txFee, verified)
    }

    /** The "Request Judgement" button replaces "Set Identity" exactly when a
        judgement request alone would be submitted. */
    predicate OffersJudgementOnly()
      reads this
    {
      JudgementOnly(Trimmed(form), verified)
    }

    predicate SubmitDisabled()
      reads this
    {
      SetIdentityDisabled(okAll, loading, availableBalance, Total(), txFee.gasFee,
                          AllowSetIdentity(Trimmed(form), verified), proxyAddresses,
                          showProxyDropdown, isProxyExistsOnWallet)
    }

    /** `getProxies`: on an answer, list the owner's delegates and forget the
        selected proxy; on no answer, keep everything. */
    method GetProxies(chain: Chain)
      modifies this`proxyAddresses, this`selectedProxyAddress
      ensures chain.proxiesOf(address).Some? ==>
                proxyAddresses == chain.proxiesOf(address).value && selectedProxyAddress == ""
      ensures chain.proxiesOf(address).None? ==>
                proxyAddresses == old(proxyAddresses) && selectedProxyAddress == old(selectedProxyAddress)
    {
      var proxies := chain.proxiesOf(address);
      if proxies.Some? {
        proxyAddresses := proxies.value;
        selectedProxyAddress := "";
      }
    }

    /** `handleLocalStorageSave`: read the stored record, write the given keys
        over it and store the result. */
    method HandleLocalStorageSave(field: map<string, StoredValue>)
      modifies this`store
      ensures store == Some(Merge(old(store), field))
    {
      var data: map<string, StoredValue> := map[];
      if store.Some? {
        data := store.value;
      }
      store := Some(data + field);
    }

    /** `handleOnAvailableBalanceChange`: a balance string that does not parse counts as zero. */
    method OnAvailableBalanceChange(parsed: Option<nat>)
      modifies this`availableBalance
      ensures availableBalance == Some(parsed.GetOr(0))
    {
      availableBalance := Some(parsed.GetOr(0));
    }

    /** The "Use proxy address" checkbox. */
    method ToggleProxyDropdown()
      modifies this`showProxyDropdown
      ensures showProxyDropdown == !old(showProxyDropdown)
    {
      showProxyDropdown := !showProxyDropdown;
    }

    /** The proxy selector reports the chosen delegate and whether the wallet holds it. */
    method SelectProxy(proxy: string, existsOnWallet: bool)
      modifies this`selectedProxyAddress, this`isProxyExistsOnWallet
      ensures selectedProxyAddress == proxy && isProxyExistsOnWallet == existsOnWallet
    {
      selectedProxyAddress := proxy;
      isProxyExistsOnWallet := existsOnWallet;
    }

    /** `getGasFee`: ask the chain for the fee of `setIdentity(info)` (through
        the proxy when one signs) and record it as the gas fee of `txFeeVal`
        (the current fee parts when absent), or record a zero gas fee without
        asking when the guard fails. Returns the request sent, if any. A
        rejected query stops the handler after `setLoading(true)`: the fee
        parts stay and the form stays loading, so it cannot be submitted. */
    method GetGasFee(chain: Chain, apiReady: bool, initialLoading: bool, txFeeVal: Option<TxFee>)
      returns (sent: Option<Estimate>)
      modifies this`txFee, this`loading
      ensures sent == GasEstimate(apiReady, okAll, initialLoading, form, info, address,
                                  selectedProxyAddress, showProxyDropdown)
      ensures GasOf(chain, sent).Some? ==> txFee == txFeeVal.GetOr(old(txFee)).(gasFee := GasOf(chain, sent).value)
      ensures GasOf(chain, sent).None? ==> txFee == old(txFee) && SubmitDisabled()
      ensures loading == if sent.Some? then GasOf(chain, sent).None? else old(loading)
    {
      var base := txFeeVal.GetOr(txFee);
      if !apiReady || (!okAll && !initialLoading)
         || form.displayName == "" || form.email == "" || form.twitter == "" {
        txFee := base.(gasFee := 0);
        return None;
      }
      var tx := SetIdentity(info);
      var signingAddress := address;
      loading := true;
      if selectedProxyAddress != "" && showProxyDropdown {
        tx := Proxy(address, SetIdentity(info));
        signingAddress := selectedProxyAddress;
      }
      sent := Some(Estimate(tx, signingAddress));
      var answer := chain.partialFee(tx, signingAddress);
      if answer.None? {
        return;
      }
      txFee := base.(gasFee := answer.value);
      loading := false;
    }

    /** `handleInfo`: validate the trimmed fields, rebuild the info record and
        `okAll`, and price the bond. On the initial load it also estimates gas;
        that estimate runs in the closure of the render that called it, so it
        still sees the previous `info` and `okAll`. */
    method HandleInfo(chain: Chain, apiReady: bool, initialLoading: bool)
      returns (sent: Option<Estimate>)
      requires Valid()
      modifies this`info, this`okAll, this`txFee, this`loading
      ensures Valid()
      ensures var e := Evaluate(old(form), verified);
              var fee := old(txFee).(bondFee := BondFee(e.okSocials, perSocialBondFee));
              && info == e.info && okAll == e.okAll
              && if initialLoading then
                   && sent == GasEstimate(apiReady, old(okAll), true, old(form), old(info), address,
                                          old(selectedProxyAddress), old(showProxyDropdown))
                   && txFee == (if GasOf(chain, sent).Some? then fee.(gasFee := GasOf(chain, sent).value) else fee)
                   && loading == if sent.Some? then GasOf(chain, sent).None? else old(loading)
                 else
                   sent == None && txFee == fee
                   && loading == old(loading)
    {
      var e := Evaluate(form, verified);
      var fee := txFee.(bondFee := BondFee(e.okSocials, perSocialBondFee));
      txFee := fee;
      if initialLoading {
        sent := GetGasFee(chain, apiReady, true, Some(fee));
      } else {
        sent := None;
      }
      info := e.info;
      okAll := e.okAll;
    }

    /** An input's change handler: the form holds what was typed, `handleInfo()`
        runs, and the trimmed value is written to local storage under the
        input's key; `record` is the social's current record (`email` or
        `twitter` of `socials`), unused for the two names. */
    method ChangeField(field: FormField, typed: string, record: map<string, StoredValue>, chain: Chain, apiReady: bool)
      requires Valid()
      modifies this`form, this`info, this`okAll, this`txFee, this`loading, this`store
      ensures Valid() && form == WithField(old(form), field, typed) && loading == old(loading)
      ensures var e := Evaluate(form, verified);
              && info == e.info && okAll == e.okAll
              && txFee == old(txFee).(bondFee := BondFee(e.okSocials, perSocialBondFee))
      ensures store == Some(Merge(old(store), map[field.Key() := StoredFor(field, Trim(typed), record)]))
    {
      form := WithField(form, field, typed);
      var _ := HandleInfo(chain, apiReady, false);
      HandleLocalStorageSave(map[field.Key() := StoredFor(field, Trim(typed), record)]);
    }

    /** `handleIdentityHashSave`: send a non-empty hash to the persistence
        endpoint; its answer is only logged. */
    method HandleIdentityHashSave(hash: string)
      modifies this`savedHashes
      ensures savedHashes == if hash == "" then old(savedHashes) else old(savedHashes) + [hash]
    {
      if hash != "" {
        savedHashes := savedHashes + [hash];
      }
    }

    /** `onSuccess`: read the identity hash of the owner's address (not the
        proxy's); when there is none, stop before any success state is set or
        stored. Otherwise record the hash, close the loading overlay and the
        form, open the success modal, store `setIdentity` and the hash, and send
        the hash to the persistence endpoint, whose answer changes nothing. */
    method OnSuccess(chain: Chain)
      modifies this`identityHash, this`startLoading, this`modalClosed, this`successOpen,
               this`store, this`isIdentityCallDone, this`savedHashes
      ensures var hash := chain.identityHashOf(address);
              if Present(hash) then
                && identityHash == hash.value
                && startLoading == LoadingState(false, "") && modalClosed && successOpen && isIdentityCallDone
                && store == Some(Merge(Some(Merge(old(store), map["setIdentity" := StoredBool(true)])),
                                       map["identityHash" := StoredString(hash.value)]))
                && savedHashes == old(savedHashes) + [hash.value]
              else
                unchanged(this)
    {
      var hash := chain.identityHashOf(address);
      if !Present(hash) {
        return;
      }
      identityHash := hash.value;
      startLoading := LoadingState(false, "");
      modalClosed := true;
      successOpen := true;
      HandleLocalStorageSave(map["setIdentity" := StoredBool(true)]);
      HandleLocalStorageSave(map["identityHash" := StoredString(hash.value)]);
      isIdentityCallDone := true;
      HandleIdentityHashSave(hash.value);
    }

    /** `onFailed`: the form and the overlay stop loading. */
    method OnFailed()
      modifies this`loading, this`startLoading
      ensures !loading && startLoading == LoadingState(false, "")
    {
      loading := false;
      startLoading := LoadingState(false, "");
    }

    /** `handleSetIdentity`: submit nothing unless the api is ready, the form
        is submittable and the network has a registrar; otherwise submit the
        plan (through the proxy when one signs), show the overlay, and run
        `onSuccess` or `onFailed` on the executor's verdict `included`. */
    method HandleSetIdentity(chain: Chain, apiReady: bool, registrarIndex: Option<nat>, included: bool)
      returns (submitted: Option<Submission>)
      requires Valid()
      modifies this`startLoading, this`loading, this`identityHash, this`successOpen,
               this`modalClosed, this`store, this`isIdentityCallDone, this`savedHashes
      ensures Valid()
      ensures submitted == SubmissionFor(apiReady, old(okAll), registrarIndex, Trimmed(old(form)), verified,
                                         old(info), old(txFee).registrarFee, address,
                                         old(selectedProxyAddress), old(showProxyDropdown))
      ensures submitted.Some? ==> old(info).Info? && old(info).display.tag == RawTag
                                  && old(info).email.tag == RawTag && old(info).twitter.tag == RawTag
      ensures submitted.None? ==> unchanged(this)
      ensures submitted.Some? ==> (submitted.value.tx.RequestJudgement? <==> old(OffersJudgementOnly()))
      ensures submitted.Some? && !included ==>
                && !loading && startLoading == LoadingState(false, "")
                && identityHash == old(identityHash) && successOpen == old(successOpen)
                && modalClosed == old(modalClosed) && isIdentityCallDone == old(isIdentityCallDone)
                && store == old(store) && savedHashes == old(savedHashes)
      ensures submitted.Some? && included ==>
                var hash := chain.identityHashOf(address);
                && loading == old(loading)
                && if Present(hash) then
                     && identityHash == hash.value
                     && startLoading == LoadingState(false, "") && modalClosed && successOpen && isIdentityCallDone
                     && store == Some(Merge(Some(Merge(old(store), map["setIdentity" := StoredBool(true)])),
                                            map["identityHash" := StoredString(hash.value)]))
                     && savedHashes == old(savedHashes) + [hash.value]
                   else
                     && startLoading == LoadingState(true, "Awaiting confirmation")
                     && identityHash == old(identityHash) && successOpen == old(successOpen)
                     && modalClosed == old(modalClosed) && isIdentityCallDone == old(isIdentityCallDone)
                     && store == old(store) && savedHashes == old(savedHashes)
    {
      submitted := SubmissionFor(apiReady, okAll, registrarIndex, Trimmed(form), verified, info,
                                 txFee.registrarFee, address, selectedProxyAddress, showProxyDropdown);
      if submitted.None? {
        return;
      }
      startLoading := LoadingState(true, "Awaiting confirmation");
      if included {
        OnSuccess(chain);
      } else {
        OnFailed();
      }
    }
  }
}
