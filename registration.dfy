/** What the Mint button (`mintDomain`) and the Set record button (`updateDomain`)
    send to the chain, as a function of the form contents and the chain's answers. */
module Registration {
  import opened Chain
  import Pricing

  /** The seven form inputs: the domain and the six optional fields. */
  datatype FormData = FormData(
    domain: string, superPwr: string, avatar: string, favNFT: string,
    discord: string, twitter: string, favSong: string)

  /** The form once every input has been reset to ''. */
  const Cleared := FormData("", "", "", "", "", "", "")

  /** Number of optional fields. */
  const FieldCount: nat := 6

  /** The fixed order in which the setters follow a successful `register`: power,
      avatar, favourite NFT, Discord, Twitter, favourite song. */
  function FieldAt(k: nat): Field
    requires k < FieldCount
  {
    if k == 0 then Power
    else if k == 1 then Avatar
    else if k == 2 then FavNFT
    else if k == 3 then Discord
    else if k == 4 then Twitter
    else FavSong
  }

  /** Position of a field in the order. */
  function Rank(f: Field): (k: nat)
    ensures k < FieldCount && FieldAt(k) == f
  {
    match f
    case Power => 0
    case Avatar => 1
    case FavNFT => 2
    case Discord => 3
    case Twitter => 4
    case FavSong => 5
  }

  lemma RankOfFieldAt(k: nat)
    requires k < FieldCount
    ensures Rank(FieldAt(k)) == k
  {
  }

  /** The form input that decides whether the setter of `f` is sent. */
  function Entered(form: FormData, f: Field): string
  {
    match f
    case Power => form.superPwr
    case Avatar => form.avatar
    case FavNFT => form.favNFT
    case Discord => form.discord
    case Twitter => form.twitter
    case FavSong => form.favSong
  }

  /** The value the page actually passes to the setter of `f`: the power for
      `setRecord`, and the avatar for every other setter, whatever was typed in the
      field itself. */
  function Argument(form: FormData, f: Field): (v: string)
    ensures f != Power ==> v == form.avatar
    ensures v == Entered(form, f) <==> f == Power || f == Avatar || Entered(form, f) == form.avatar
  {
    if f == Power then form.superPwr else form.avatar
  }

  /** Number of optional inputs that are not empty. */
  function FilledCount(form: FormData): nat
  {
    (if form.superPwr != "" then 1 else 0) + (if form.avatar != "" then 1 else 0) +
    (if form.favNFT != "" then 1 else 0) + (if form.discord != "" then 1 else 0) +
    (if form.twitter != "" then 1 else 0) + (if form.favSong != "" then 1 else 0)
  }

  /** The setter for `f`, if its input is not empty. */
  function SetterFor(form: FormData, f: Field): seq<Call>
  {
    if Entered(form, f) != "" then [Set(f, form.domain, Argument(form, f))] else []
  }

  /** The setters for the first `n` fields of the order, skipping empty fields. */
  function SettersUpTo(form: FormData, n: nat): seq<Call>
    requires n <= FieldCount
  {
    if n == 0 then [] else SettersUpTo(form, n - 1) + SetterFor(form, FieldAt(n - 1))
  }

  /** The setters that follow a successful `register`: each one is for a non-empty
      field, names the form's domain and carries that field's argument. */
  function SetterPlan(form: FormData): (p: seq<Call>)
    ensures forall c :: c in p ==>
      c.Set? && Entered(form, c.field) != "" && c.name == form.domain &&
      c.value == Argument(form, c.field)
  {
    SettersUpToSound(form, FieldCount);
    SettersUpTo(form, FieldCount)
  }

  /** Every call is a setter, and their fields strictly follow the fixed order. */
  predicate Ascending(calls: seq<Call>)
  {
    forall i, j :: 0 <= i < j < |calls| ==>
      calls[i].Set? && calls[j].Set? && Rank(calls[i].field) < Rank(calls[j].field)
  }

  /** Every setter among the first `n` fields is for a non-empty field, names the
      form's domain and carries that field's argument. */
  lemma {:induction false} SettersUpToSound(form: FormData, n: nat)
    requires n <= FieldCount
    ensures forall c :: c in SettersUpTo(form, n) ==>
      c.Set? && Rank(c.field) < n && Entered(form, c.field) != "" &&
      c.name == form.domain && c.value == Argument(form, c.field)
  {
    if n > 0 {
      SettersUpToSound(form, n - 1);
      RankOfFieldAt(n - 1);
    }
  }

  /** Setters come out in the order of their fields. */
  lemma {:induction false} SettersUpToOrdered(form: FormData, n: nat)
    requires n <= FieldCount
    ensures Ascending(SettersUpTo(form, n))
  {
    if n > 0 {
      var prev, last := SettersUpTo(form, n - 1), SetterFor(form, FieldAt(n - 1));
      var p := SettersUpTo(form, n);
      SettersUpToOrdered(form, n - 1);
      SettersUpToSound(form, n - 1);
      RankOfFieldAt(n - 1);
      assert p == prev + last;
      forall i, j | 0 <= i < j < |p|
        ensures p[i].Set? && p[j].Set? && Rank(p[i].field) < Rank(p[j].field)
      {
        if j < |prev| {
          assert p[i] == prev[i] && p[j] == prev[j];
        } else {
          assert p[i] == prev[i] && p[i] in prev;
          assert p[j] == Set(FieldAt(n - 1), form.domain, Argument(form, FieldAt(n - 1)));
        }
      }
    }
  }

  /** Every non-empty field among the first `n` gets its setter. */
  lemma {:induction false} SettersUpToComplete(form: FormData, n: nat, f: Field)
    requires n <= FieldCount && Rank(f) < n && Entered(form, f) != ""
    ensures Set(f, form.domain, Argument(form, f)) in SettersUpTo(form, n)
  {
    if Rank(f) < n - 1 {
      SettersUpToComplete(form, n - 1, f);
    }
  }

  /** The setters of a shorter prefix of the order come first. */
  lemma {:induction false} SettersUpToPrefix(form: FormData, m: nat, n: nat)
    requires m <= n <= FieldCount
    ensures SettersUpTo(form, m) <= SettersUpTo(form, n)
  {
    if m < n {
      SettersUpToPrefix(form, m, n - 1);
    }
  }

  /** One step of sending the setters field by field: if the setters of the first
      `i` fields all went through, then field `i` either adds nothing, or adds its
      setter, which goes through or ends the whole plan right there. */
  lemma IssueSettersStep(form: FormData, send: Call -> Outcome, i: nat)
    requires i < FieldCount
    requires Issue(SettersUpTo(form, i), send).completed
    ensures Entered(form, FieldAt(i)) == "" ==> SettersUpTo(form, i + 1) == SettersUpTo(form, i)
    ensures var c := Set(FieldAt(i), form.domain, Argument(form, FieldAt(i)));
      Entered(form, FieldAt(i)) != "" && !send(c).Threw? ==>
        Issue(SettersUpTo(form, i) + [c], send).completed
    ensures var c := Set(FieldAt(i), form.domain, Argument(form, FieldAt(i)));
      Entered(form, FieldAt(i)) != "" && send(c).Threw? ==>
        Issue(SetterPlan(form), send) == Issued(SettersUpTo(form, i) + [c], false)
  {
    var done, f := SettersUpTo(form, i), FieldAt(i);
    var c := Set(f, form.domain, Argument(form, f));
    if Entered(form, f) != "" {
      IssueAppend(done, [c], send);
      assert [c][1..] == [];
      if send(c).Threw? {
        SettersUpToPrefix(form, i + 1, FieldCount);
        IssueExtend(done + [c], SetterPlan(form), send);
      }
    }
  }

  lemma SetterPlanUnfold(form: FormData)
    ensures SetterPlan(form) ==
      SetterFor(form, Power) + SetterFor(form, Avatar) + SetterFor(form, FavNFT) +
      SetterFor(form, Discord) + SetterFor(form, Twitter) + SetterFor(form, FavSong)
  {
    assert SettersUpTo(form, 1) == SetterFor(form, Power);
    assert SettersUpTo(form, 2) == SettersUpTo(form, 1) + SetterFor(form, Avatar);
    assert SettersUpTo(form, 3) == SettersUpTo(form, 2) + SetterFor(form, FavNFT);
    assert SettersUpTo(form, 4) == SettersUpTo(form, 3) + SetterFor(form, Discord);
    assert SettersUpTo(form, 5) == SettersUpTo(form, 4) + SetterFor(form, Twitter);
    assert SettersUpTo(form, 6) == SettersUpTo(form, 5) + SetterFor(form, FavSong);
  }

  /** After a successful `register`, one setter is sent per non-empty optional field. */
  lemma SetterPlanCount(form: FormData)
    ensures |SetterPlan(form)| == FilledCount(form)
  {
    SetterPlanUnfold(form);
  }

  /** Each setter is for a non-empty field and names the domain; the power setter
      carries the power and every later setter carries the avatar. */
  lemma SetterPlanArguments(form: FormData)
    ensures var p := SetterPlan(form);
      forall i :: 0 <= i < |p| ==>
        p[i].Set? && Entered(form, p[i].field) != "" && p[i].name == form.domain &&
        p[i].value == (if p[i].field == Power then form.superPwr else form.avatar)
  {
    var p := SetterPlan(form);
    SettersUpToSound(form, FieldCount);
    assert forall i :: 0 <= i < |p| ==> p[i] in p;
  }

  /** Setters follow the fixed field order, so no field is set twice. */
  lemma SetterPlanOrdered(form: FormData)
    ensures Ascending(SetterPlan(form))
  {
    SettersUpToOrdered(form, FieldCount);
  }

  /** No non-empty optional field is skipped. */
  lemma SetterPlanComplete(form: FormData, f: Field)
    requires Entered(form, f) != ""
    ensures Set(f, form.domain, Argument(form, f)) in SetterPlan(form)
  {
    SettersUpToComplete(form, FieldCount, f);
  }

  /** How a minting attempt or a record update ends. */
  datatype Ending =
    | EmptyName   // mint: empty name, returned silently
    | Guarded     // update: power or domain empty, returned silently
    | TooShort    // alert "Domain must be at least 3 characters long"
    | Aborted     // a thrown error was caught; the rest was skipped
    | Failed      // register mined with a status other than 1: alert "Transaction failed!"
    | Completed   // every call went through: form reset and resync scheduled

  /** The calls sent by one attempt and how it ended. */
  datatype Attempt = Attempt(calls: seq<Call>, end: Ending)

  /** `register(domain, {value: price})`. */
  function RegisterCall(form: FormData): Call
  {
    Register(form.domain, Pricing.Price(form.domain))
  }

  /** Everything a fully successful mint sends. */
  function MintPlan(form: FormData): seq<Call>
  {
    [RegisterCall(form)] + SetterPlan(form)
  }

  /** `mintDomain`: validate, register paying the price, check the receipt, then send
      the setters one by one. Without a wallet, building the provider throws before
      anything is sent. */
  function MintSequence(form: FormData, gw: Gateway): (r: Attempt)
    ensures r.calls <= MintPlan(form)
  {
    if form.domain == "" then Attempt([], EmptyName)
    else if |form.domain| < 3 then Attempt([], TooShort)
    else if !gw.present then Attempt([], Aborted)
    else
      var reg := RegisterCall(form);
      match gw.send(reg)
      case Threw => Attempt([reg], Aborted)
      case Mined(status) =>
        if status != 1 then Attempt([reg], Failed)
        else
          var s := Issue(SetterPlan(form), gw.send);
          Attempt([reg] + s.calls, if s.completed then Completed else Aborted)
  }

  /** Once `register` is mined with status 1, the attempt is the setter plan sent
      through `Issue`. */
  lemma MintAfterRegister(form: FormData, gw: Gateway)
    requires |form.domain| >= 3 && gw.present && gw.send(RegisterCall(form)) == Mined(1)
    ensures var s := Issue(SetterPlan(form), gw.send);
      MintSequence(form, gw) ==
        Attempt([RegisterCall(form)] + s.calls, if s.completed then Completed else Aborted)
  {
  }

  /** An empty name sends nothing and ends silently; a name of one or two characters
      sends nothing and ends with the length alert. */
  lemma MintValidation(form: FormData, gw: Gateway)
    requires |form.domain| < 3
    ensures MintSequence(form, gw).calls == []
    ensures MintSequence(form, gw).end == if form.domain == "" then EmptyName else TooShort
  {
  }

  /** `register` is the first call of any attempt that sends something, it pays the
      price of the name, and it is sent exactly once; everything after it is a setter
      naming the same domain. */
  lemma MintRegistersOnce(form: FormData, gw: Gateway)
    ensures var r := MintSequence(form, gw);
      r.calls != [] ==>
        |form.domain| >= 3 && gw.present &&
        r.calls[0] == Register(form.domain, Pricing.Price(form.domain)) &&
        forall i :: 1 <= i < |r.calls| ==> r.calls[i].Set? && r.calls[i].name == form.domain
  {
    var r := MintSequence(form, gw);
    var p := SetterPlan(form);
    SetterPlanArguments(form);
    if r.calls != [] {
      forall i | 1 <= i < |r.calls| ensures r.calls[i].Set? && r.calls[i].name == form.domain {
        assert r.calls[i] == MintPlan(form)[i] == p[i - 1];
      }
    }
  }

  /** No setter is sent unless `register` was mined with status 1; a register that
      throws or is mined with another status is the only call sent. */
  lemma MintSettersNeedStatusOne(form: FormData, gw: Gateway)
    requires |form.domain| >= 3 && gw.present
    ensures var r := MintSequence(form, gw);
      && (|r.calls| > 1 ==> gw.send(RegisterCall(form)) == Mined(1))
      && (gw.send(RegisterCall(form)) == Threw ==> r == Attempt([RegisterCall(form)], Aborted))
      && (gw.send(RegisterCall(form)).Mined? && gw.send(RegisterCall(form)).status != 1 ==>
            r == Attempt([RegisterCall(form)], Failed))
  {
  }

  /** An attempt completes exactly when the name is valid, a wallet is present,
      `register` is mined with status 1 and no setter throws; it then has sent the
      whole plan: one `register` and one setter per non-empty optional field. */
  lemma MintCompletedIff(form: FormData, gw: Gateway)
    ensures var r := MintSequence(form, gw);
      r.end == Completed <==>
        |form.domain| >= 3 && gw.present && gw.send(RegisterCall(form)) == Mined(1) &&
        forall c :: c in SetterPlan(form) ==> !gw.send(c).Threw?
    ensures var r := MintSequence(form, gw);
      r.end == Completed ==> r.calls == MintPlan(form) && |r.calls| == 1 + FilledCount(form)
  {
    var p := SetterPlan(form);
    IssueCompletedIff(p, gw.send);
    SetterPlanCount(form);
    assert (forall c :: c in p ==> !gw.send(c).Threw?) <==> (forall i :: 0 <= i < |p| ==> !gw.send(p[i]).Threw?);
  }

  /** An attempt that aborts after sending something stops right after the call that
      threw: every earlier call was mined and stays in effect, and the rest of the
      plan is never sent. */
  lemma MintAbortStopsAtFailure(form: FormData, gw: Gateway)
    ensures var r := MintSequence(form, gw);
      r.end == Aborted && r.calls != [] ==>
        && gw.send(r.calls[|r.calls| - 1]) == Threw
        && (forall i :: 0 <= i < |r.calls| - 1 ==> gw.send(r.calls[i]).Mined?)
        && r.calls <= MintPlan(form)
  {
    var r := MintSequence(form, gw);
    if r.end == Aborted && |r.calls| > 1 {
      var s := Issue(SetterPlan(form), gw.send);
      assert r.calls == [RegisterCall(form)] + s.calls;
      forall i | 1 <= i < |r.calls| - 1 ensures gw.send(r.calls[i]).Mined? {
        assert r.calls[i] == s.calls[i - 1];
      }
      assert r.calls[|r.calls| - 1] == s.calls[|s.calls| - 1];
    }
  }

  /** Scenario: a three-letter name pays tier A, and with only the power filled in and
      every call mined with status 1 the attempt is `register` then `setRecord`. */
  lemma MintPowerOnlyScenario(gw: Gateway)
    requires gw.present && forall c :: gw.send(c) == Mined(1)
    ensures var form := FormData("abc", "strong", "", "", "", "", "");
      MintSequence(form, gw) ==
        Attempt([Register("abc", Pricing.TierA), Set(Power, "abc", "strong")], Completed)
  {
    var form := FormData("abc", "strong", "", "", "", "", "");
    SetterPlanUnfold(form);
    assert SetterPlan(form) == [Set(Power, "abc", "strong")];
  }

  /** How a record update ends: `Aborted` also covers a missing wallet, where the
      page sends nothing and leaves the form as it is. */
  function UpdateSequence(form: FormData, gw: Gateway): (r: Attempt)
    ensures r.calls <= [Set(Power, form.domain, form.superPwr)]
    ensures r.end == Guarded <==> form.superPwr == "" || form.domain == ""
  {
    if form.superPwr == "" || form.domain == "" then Attempt([], Guarded)
    else if !gw.present then Attempt([], Aborted)
    else
      var c := Set(Power, form.domain, form.superPwr);
      Attempt([c], if gw.send(c).Threw? then Aborted else Completed)
  }

  /** `updateDomain` sends nothing when the power or the domain is empty, and
      otherwise at most one `setRecord(domain, superPwr)`; it completes exactly when
      that call is sent and does not throw. */
  lemma UpdateSendsOneRecord(form: FormData, gw: Gateway)
    ensures var r := UpdateSequence(form, gw);
      && (form.superPwr == "" || form.domain == "" ==> r.calls == [] && r.end == Guarded)
      && (form.superPwr != "" && form.domain != "" && gw.present ==>
            r.calls == [Set(Power, form.domain, form.superPwr)])
      && (r.end == Completed <==>
            form.superPwr != "" && form.domain != "" && gw.present &&
            !gw.send(Set(Power, form.domain, form.superPwr)).Threw?)
  {
  }
}
