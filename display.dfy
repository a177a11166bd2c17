/** The two string rules of the page: the case-insensitive owner check that decides
    whether a listed domain gets an edit button, and the shortened wallet address
    shown in the header. */
module Display {

  /** `toLowerCase` on one character, restricted to ASCII: addresses are
      `0x` followed by hexadecimal digits, possibly in checksum mixed case. */
  function LowerChar(c: char): (d: char)
    ensures 'A' <= c <= 'Z' ==> 'a' <= d <= 'z' && d as int - c as int == 32
    ensures !('A' <= c <= 'Z') ==> d == c
  {
    if 'A' <= c <= 'Z' then (c as int + 32) as char else c
  }

  /** `toLowerCase` on a whole string, one character at a time. */
  function Lower(s: string): (r: string)
    ensures |r| == |s|
    ensures forall i :: 0 <= i < |s| ==> r[i] == LowerChar(s[i])
  {
    if s == [] then [] else [LowerChar(s[0])] + Lower(s[1..])
  }

  /** Lower-casing twice is lower-casing once. */
  lemma {:induction false} LowerIdempotent(s: string)
    ensures Lower(Lower(s)) == Lower(s)
  {
    if s != [] {
      LowerIdempotent(s[1..]);
      assert Lower(s)[1..] == Lower(s[1..]);
    }
  }

  /** `mint.owner.toLowerCase() === currentAccount.toLowerCase()`. */
  predicate SameOwner(owner: string, account: string): (b: bool)
    ensures owner == account ==> b
    ensures b ==> |owner| == |account|
  {
    Lower(owner) == Lower(account)
  }

  /** The owner check holds exactly when the two strings have the same length and
      agree at every position once letters are folded to lower case. */
  lemma SameOwnerIff(owner: string, account: string)
    ensures SameOwner(owner, account) <==>
      |owner| == |account| &&
      forall i :: 0 <= i < |owner| ==> LowerChar(owner[i]) == LowerChar(account[i])
  {
    if |owner| == |account| && forall i :: 0 <= i < |owner| ==> LowerChar(owner[i]) == LowerChar(account[i]) {
      assert Lower(owner) == Lower(account);
    }
  }

  /** A checksummed address and its all-lower-case spelling are the same owner,
      and the check is symmetric. */
  lemma SameOwnerIgnoresCase(owner: string, account: string)
    ensures SameOwner(owner, Lower(owner))
    ensures SameOwner(owner, account) == SameOwner(account, owner)
  {
    LowerIdempotent(owner);
  }

  function Min(a: int, b: int): int { if a <= b then a else b }
  function Max(a: int, b: int): int { if a <= b then b else a }

  /** `currentAccount.slice(0, 6) + "..." + currentAccount.slice(-4)`: JavaScript
      clamps both slices to the string, so a short string shows in full twice. */
  function ShortAddress(account: string): (r: string)
    ensures |r| == Min(6, |account|) + 3 + Min(4, |account|)
    ensures account[..Min(6, |account|)] <= r
    ensures r[|r| - Min(4, |account|)..] == account[|account| - Min(4, |account|)..]
    ensures r[Min(6, |account|)..Min(6, |account|) + 3] == "..."
  {
    account[..Min(6, |account|)] + "..." + account[Max(|account| - 4, 0)..]
  }

  /** The header text: the shortened address when a wallet is connected. */
  function WalletLabel(account: string): (r: string)
    ensures (r == "Not connected") <==> account == ""
    ensures account != "" ==> |r| == 8 + |ShortAddress(account)|
    ensures account != "" ==> r[..8] == "Wallet: " && r[8..] == ShortAddress(account)
  {
    if account == "" then "Not connected"
    else
      var r := "Wallet: " + ShortAddress(account);
      assert r[0] == 'W' != "Not connected"[0];
      r
  }

  /** For an account of ten or more characters the label keeps the first six and the
      last four characters and elides exactly the middle: putting the middle back in
      place of the dots gives the account again. */
  lemma ShortAddressElidesMiddle(account: string)
    requires |account| >= 10
    ensures var r := ShortAddress(account);
      |r| == 13 && r[6..9] == "..." &&
      r[..6] + account[6..|account| - 4] + r[9..] == account
  {
    var r := ShortAddress(account);
    assert r[..6] == account[..6];
    assert r[9..] == account[|account| - 4..];
    assert account == account[..6] + account[6..|account| - 4] + account[|account| - 4..];
  }

  /** A 42-character Ethereum address is shown as 13 characters. */
  lemma EthereumAddressLabel(account: string)
    requires |account| == 42
    ensures |ShortAddress(account)| == 13
    ensures WalletLabel(account) == "Wallet: " + account[..6] + "..." + account[38..]
  {
  }

  /** Below four characters both slices are the whole string, so it appears twice. */
  lemma ShortAccountRepeats(account: string)
    requires |account| < 4
    ensures ShortAddress(account) == account + "..." + account
  {
  }
}
