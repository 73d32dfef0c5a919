/** test_connection.py: try four spellings of the account identifier, in
    order, and report the first one that connects and answers a version
    query. The driver is an oracle: `probe(k)` is what the k-th attempt
    (counting from 0) runs into. */
module TestConnection {
  import opened Wrappers
  import opened Text
  import opened Config

  /** What one attempt runs into: `connect` raises, the version query
      (execute, fetchone, `result[0]`) raises, or the version comes back. */
  datatype Probe = ConnectFails | QueryFails | Answered

  /** `account_formats`: the account as given, the text before its first
      '-', the text after it up to a second '-', and '-' replaced by '.'. */
  function AccountFormats(account: string): (formats: seq<string>)
    ensures |formats| == 4 && formats[0] == account
    ensures |formats[3]| == |account| && '-' !in formats[3]
    ensures forall i :: 0 <= i < |account| && account[i] != '-' ==> formats[3][i] == account[i]
    ensures forall i :: 0 <= i < |account| && account[i] == '-' ==> formats[3][i] == '.'
  {
    [ account,
      if '-' in account then Split(account, '-')[0] else account,
      if '-' in account then Split(account, '-')[1] else account,
      ReplaceChar(account, '-', '.') ]
  }

  /** With a '-': entry 2 is the text before the first '-', and entry 3 the
      text after it, up to the next '-' or the end. */
  lemma AccountFormatsWithDash(account: string)
    requires '-' in account
    ensures var f := AccountFormats(account);
      && '-' !in f[1] && '-' !in f[2]
      && |f[1]| < |account| && account[..|f[1]|] == f[1] && account[|f[1]|] == '-'
      && f[2] <= account[|f[1]| + 1..]
      && (|f[1]| + 1 + |f[2]| == |account| || account[|f[1]| + 1 + |f[2]|] == '-')
  {
    SplitFirst(account, '-');
    SplitSecond(account, '-');
  }

  /** Without a '-', entries 2 to 4 all repeat the account: the list is
      not de-duplicated. */
  lemma AccountFormatsWithoutDash(account: string)
    requires '-' !in account
    ensures AccountFormats(account) == [account, account, account, account]
  {
    var r := AccountFormats(account)[3];
    assert r == account by {
      assert |r| == |account|;
      forall i | 0 <= i < |account| ensures r[i] == account[i] {
        assert account[i] in account;
      }
    }
  }

  /** The first attempt among 0..n-1 whose probe answers, if any. */
  function FirstAnswered(probe: nat -> Probe, n: nat): (r: Option<nat>)
    ensures r.Some? ==> r.value < n && probe(r.value) == Answered
    ensures r.Some? ==> forall j :: 0 <= j < r.value ==> probe(j) != Answered
    ensures r.None? ==> forall j :: 0 <= j < n ==> probe(j) != Answered
  {
    if n == 0 then None
    else match FirstAnswered(probe, n - 1)
      case Some(k) => Some(k)
      case None => if probe(n - 1) == Answered then Some(n - 1) else None
  }

  /** What `test_connection` returns, and the candidates it passes to
      `connect`, once the credentials are present. */
  function Attempts(account: string, probe: nat -> Probe): (r: (Option<string>, seq<string>)) {
    var formats := AccountFormats(account);
    match FirstAnswered(probe, |formats|)
    case Some(k) => (Some(formats[k]), formats[..k + 1])
    case None => (None, formats)
  }

  /** The candidates are tried in list order and the loop stops at the
      first that answers: earlier ones all failed, later ones are never
      tried, and None comes back only after all four failed. */
  lemma AttemptsFirstSuccess(account: string, probe: nat -> Probe)
    ensures var (result, tried) := Attempts(account, probe);
      && 1 <= |tried| <= 4
      && tried == AccountFormats(account)[..|tried|]
      && (forall k :: 0 <= k < |tried| - 1 ==> probe(k) != Answered)
      && (result.Some? <==> probe(|tried| - 1) == Answered)
      && (result.Some? ==> result.value == tried[|tried| - 1])
      && (result.None? ==> tried == AccountFormats(account))
  {
    var formats := AccountFormats(account);
    assert formats[..4] == formats;
  }

  /** An account without '-' whose every attempt fails is tried four times
      over, as the same string. */
  lemma RetriesSameAccount(account: string, probe: nat -> Probe)
    requires '-' !in account
    requires forall k :: probe(k) != Answered
    ensures Attempts(account, probe) == (None, [account, account, account, account])
  {
    AccountFormatsWithoutDash(account);
    var r := FirstAnswered(probe, 4);
    assert r.None? by {
      if r.Some? {
        assert probe(r.value) == Answered;
      }
    }
  }

  /** `test_connection`: None before any attempt when user, password or
      account is missing or empty; otherwise the attempts of Attempts.
      `tried` lists the account strings passed to `connect`, in order. */
  method TestConnection(env: Env, probe: nat -> Probe) returns (result: Option<string>, tried: seq<string>)
    ensures !RequiredPresent(env) ==> result == None && tried == []
    ensures RequiredPresent(env) ==> AccountVar in env && (result, tried) == Attempts(env[AccountVar], probe)
  {
    tried := [];
    if !RequiredPresent(env) {
      return None, tried;
    }
    RequiredPresentIff(env);
    var accountFormats := AccountFormats(env[AccountVar]);
    for i := 0 to |accountFormats|
      invariant tried == accountFormats[..i]
      invariant FirstAnswered(probe, i) == None
    {
      var accountFormat := accountFormats[i];
      tried := tried + [accountFormat];
      if probe(i) == Answered {
        var first := FirstAnswered(probe, |accountFormats|);
        assert first.Some? && first.value == i;
        assert tried == accountFormats[..i + 1];
        return Some(accountFormat), tried;
      }
    }
    assert accountFormats[..4] == accountFormats;
    return None, tried;
  }
}
