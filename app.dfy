/** The page component: its form, list and loading state, and the handlers that walk
    through the chain calls step by step. `trace` records, in order, everything the
    page does to the outside world. */
module Frontend {
  import opened Chain
  import opened Registration
  import Pricing
  import Display
  import Sync
  import Network

  /** The browser alerts the page can raise. */
  datatype Alert =
    | NameTooShort        // "Domain must be at least 3 characters long"
    | TransactionFailed   // "Transaction failed! Please try again"
    | WalletMissing       // "MetaMask is not installed. ..."

  /** One observable effect of the page. */
  datatype Event =
    | Sent(call: Call)      // a call attempted; the wallet may still have rejected it
    | Alerted(alert: Alert)
    | Loading(on: bool)
    | Requested(request: Network.WalletRequest)

  /** One `Sent` event per call, in order. */
  function SentAll(calls: seq<Call>): seq<Event>
  {
    seq(|calls|, i requires 0 <= i < |calls| => Sent(calls[i]))
  }

  /** The alert that ends a minting attempt, if any. */
  function MintAlerts(end: Ending): seq<Event>
  {
    match end
    case TooShort => [Alerted(NameTooShort)]
    case Failed => [Alerted(TransactionFailed)]
    case _ => []
  }

  /** One `Requested` event per wallet request, in order. */
  function Requests(rs: seq<Network.WalletRequest>): seq<Event>
  {
    seq(|rs|, i requires 0 <= i < |rs| => Requested(rs[i]))
  }

  /** The setters that follow a successful `register`, one field at a time in the
      fixed order: empty fields are skipped, each setter is awaited before the next,
      and the first one that throws ends the walk. Returns the calls sent and whether
      all of them went through. */
  method ApplyFields(form: FormData, gw: Gateway) returns (sent: seq<Call>, completed: bool)
    ensures sent == Issue(SetterPlan(form), gw.send).calls
    ensures completed == Issue(SetterPlan(form), gw.send).completed
  {
    sent := [];
    var i := 0;
    while i < FieldCount
      invariant 0 <= i <= FieldCount
      invariant sent == SettersUpTo(form, i)
      invariant Issue(sent, gw.send).completed
    {
      var f := FieldAt(i);
      IssueSettersStep(form, gw.send, i);
      if Entered(form, f) != "" {
        var c := Set(f, form.domain, Argument(form, f));
        sent := sent + [c];
        if gw.send(c).Threw? {
          return sent, false;
        }
      }
      i := i + 1;
    }
    return sent, true;
  }

  /** The steps of `mintDomain` that talk to the chain: validate the name, build
      the provider, send `register` paying the price, check the receipt, then send
      the setters. */
  method Mint(form: FormData, gw: Gateway) returns (r: Attempt)
    ensures r == MintSequence(form, gw)
  {
    if form.domain == "" {
      return Attempt([], EmptyName);
    }
    if |form.domain| < 3 {
      return Attempt([], TooShort);
    }
    if !gw.present {
      return Attempt([], Aborted);
    }
    var reg := Register(form.domain, Pricing.Price(form.domain));
    var receipt := gw.send(reg);
    if receipt.Threw? {
      return Attempt([reg], Aborted);
    }
    if receipt.status != 1 {
      return Attempt([reg], Failed);
    }
    MintAfterRegister(form, gw);
    var sent, completed := ApplyFields(form, gw);
    return Attempt([reg] + sent, if completed then Completed else Aborted);
  }

  /** The reads of `fetchMints`: enumerate the names, then read each name's record,
      avatar and owner in turn; the first read that throws abandons the rebuild. */
  method ReadMints(gw: Gateway) returns (fetched: Read<seq<Sync.Mint>>)
    ensures fetched == Sync.Rebuild(gw)
  {
    if !gw.present || gw.allNames.ReadFailed? {
      return ReadFailed;
    }
    var names := gw.allNames.value;
    var built: seq<Sync.Mint> := [];
    var i := 0;
    while i < |names|
      invariant 0 <= i <= |names|
      invariant Sync.Collect(names, gw, i) == Got(built)
    {
      var name := names[i];
      var record := gw.records(name);
      var avatarUrl := gw.avatars(name);
      var owner := gw.owners(name);
      if record.ReadFailed? || avatarUrl.ReadFailed? || owner.ReadFailed? {
        assert Sync.Snapshot(names, gw, name) == ReadFailed;
        Sync.CollectFailureSticks(names, gw, i + 1, |names|);
        return ReadFailed;
      }
      var m := Sync.Mint(Sync.IndexOf(names, name), name, record.value, avatarUrl.value, owner.value);
      assert Sync.Snapshot(names, gw, name) == Got(m);
      built := built + [m];
      i := i + 1;
    }
    return Got(built);
  }

  class App {
    /** The connected wallet's address, '' when none is connected. */
    var currentAccount: string
    /** The name of the wallet's current network. */
    var network: string
    var domain: string
    var superPwr: string
    var avatar: string
    var favNFT: string
    var discord: string
    var twitter: string
    var favSong: string
    var editing: bool
    var mints: seq<Sync.Mint>
    var loading: bool
    /** `fetchMints` has been scheduled to run after the two-second delay. */
    var resyncScheduled: bool
    ghost var trace: seq<Event>

    /** Every piece of state starts empty. */
    constructor ()
      ensures currentAccount == "" && network == ""
      ensures Form() == Cleared && !editing && mints == [] && !loading
      ensures !resyncScheduled && trace == []
    {
      currentAccount, network := "", "";
      domain, superPwr, avatar, favNFT := "", "", "", "";
      discord, twitter, favSong := "", "", "";
      editing, mints, loading, resyncScheduled := false, [], false, false;
      trace := [];
    }

    /** The seven form inputs. */
    function Form(): FormData
      reads this`domain, this`superPwr, this`avatar, this`favNFT, this`discord
      reads this`twitter, this`favSong
    {
      FormData(domain, superPwr, avatar, favNFT, discord, twitter, favSong)
    }

    /** Whether a listed domain gets an edit button: its owner is the connected
        account, ignoring case. */
    predicate Editable(m: Sync.Mint): (b: bool)
      reads this`currentAccount
      ensures m.owner == currentAccount ==> b
      ensures b ==> |m.owner| == |currentAccount|
    {
      Display.SameOwner(m.owner, currentAccount)
    }

    /** The wallet status shown in the header. */
    function WalletStatus(): (s: string)
      reads this`currentAccount
      ensures (s == "Not connected") <==> currentAccount == ""
    {
      Display.WalletLabel(currentAccount)
    }

    /** `mintDomain`: the attempt's calls, then its closing alert, if any, are
        recorded; only a completed attempt resets the seven inputs and schedules a
        resync, and otherwise the form is left as it was. */
    method MintDomain(gw: Gateway)
      modifies this`domain, this`superPwr, this`avatar, this`favNFT, this`discord
      modifies this`twitter, this`favSong, this`resyncScheduled, this`trace
      ensures var r := MintSequence(old(Form()), gw);
        trace == old(trace) + SentAll(r.calls) + MintAlerts(r.end)
      ensures if MintSequence(old(Form()), gw).end == Completed then Form() == Cleared && resyncScheduled
        else Form() == old(Form()) && resyncScheduled == old(resyncScheduled)
    {
      var r := Mint(Form(), gw);
      trace := trace + SentAll(r.calls) + MintAlerts(r.end);
      if r.end == Completed {
        resyncScheduled := true;
        ResetForm();
      }
    }

    /** `updateDomain`. With both the power and the domain filled in, `loading` is
        raised before the one `setRecord` call and lowered after it whatever its
        outcome; only a call that goes through refreshes the list and resets the
        form. With either one empty nothing happens at all. */
    method UpdateDomain(gw: Gateway)
      modifies this`domain, this`superPwr, this`avatar, this`favNFT, this`discord
      modifies this`twitter, this`favSong, this`loading, this`mints, this`trace
      ensures var r := UpdateSequence(old(Form()), gw);
        if r.end == Guarded then
          trace == old(trace) && Form() == old(Form()) && loading == old(loading) && mints == old(mints)
        else
          && trace == old(trace) + [Loading(true)] + SentAll(r.calls) + [Loading(false)]
          && !loading
          && (r.end == Completed ==> Form() == Cleared && mints == Sync.Refreshed(old(mints), gw))
          && (r.end != Completed ==> Form() == old(Form()) && mints == old(mints))
    {
      ghost var r := UpdateSequence(Form(), gw);
      if superPwr == "" || domain == "" {
        return;
      }
      loading := true;
      trace := trace + [Loading(true)];
      if gw.present {
        var c := Set(Power, domain, superPwr);
        trace := trace + [Sent(c)];
        assert SentAll(r.calls) == [Sent(c)];
        if !gw.send(c).Threw? {
          FetchMints(gw);
          ResetForm();
        }
      }
      loading := false;
      trace := trace + [Loading(false)];
    }

    /** `fetchMints`: the list is replaced by the new snapshots only when every
        read succeeds. */
    method FetchMints(gw: Gateway)
      modifies this`mints
      ensures mints == Sync.Refreshed(old(mints), gw)
    {
      var fetched := ReadMints(gw);
      if fetched.Got? {
        mints := fetched.value;
      }
    }

    /** Reset the seven inputs to ''. */
    method ResetForm()
      modifies this`domain, this`superPwr, this`avatar, this`favNFT, this`discord
      modifies this`twitter, this`favSong
      ensures Form() == Cleared
    {
      domain, superPwr, avatar, favNFT := "", "", "", "";
      discord, twitter, favSong := "", "", "";
    }

    /** `editRecord`: enter edit mode for a listed domain. */
    method EditRecord(name: string)
      modifies this`editing, this`domain
      ensures editing && domain == name
    {
      editing := true;
      domain := name;
    }

    /** `switchNetwork`: the requests of `SwitchRequests`, or the missing-wallet alert. */
    method SwitchNetwork(gw: Gateway)
      modifies this`trace
      ensures trace == old(trace) + Requests(Network.SwitchRequests(gw)) +
        (if gw.present then [] else [Alerted(WalletMissing)])
    {
      if !gw.present {
        trace := trace + [Alerted(WalletMissing)];
        return;
      }
      var switchTo := Network.SwitchChain(Network.TargetChainId);
      trace := trace + [Requested(switchTo)];
      if gw.switchAnswer.SwitchFailed? && gw.switchAnswer.code == Network.UnknownChainCode {
        var add := Network.AddChain(Network.Mumbai);
        trace := trace + [Requested(add)];
        assert Requests([switchTo, add]) == [Requested(switchTo), Requested(add)];
      } else {
        assert Requests([switchTo]) == [Requested(switchTo)];
      }
    }
  }
}
