/** Identifier patterns of AWS Organizations and the validators and chunking
    helper shared by every lambda (utilsLayer/lib/exports.ts). */
module UtilsExports {
  import opened Common

  predicate IsLowerAlnum(c: char) { 'a' <= c <= 'z' || '0' <= c <= '9' }

  predicate AllLowerAlnum(s: string) { forall i :: 0 <= i < |s| ==> IsLowerAlnum(s[i]) }

  /** OU_REGEX `^ou-[0-9a-z]{4,32}-[a-z0-9]{8,32}$`; the dash at j separates
      the two runs. */
  predicate IsOu(s: string) {
    && |s| >= 3 && s[..3] == "ou-"
    && exists j :: 7 <= j <= 35 && j < |s| && s[j] == '-'
                   && AllLowerAlnum(s[3..j]) && 8 <= |s| - j - 1 <= 32 && AllLowerAlnum(s[j + 1..])
  }

  /** ORG_REGEX `^o-[a-z0-9]{10,32}$`. */
  predicate IsOrg(s: string) {
    12 <= |s| <= 34 && s[..2] == "o-" && AllLowerAlnum(s[2..])
  }

  /** ACCOUNT_REGEX `^\d{12}`: anchored at the start only, so anything that
      begins with twelve digits matches. */
  predicate IsAccount(s: string) {
    |s| >= 12 && forall i :: 0 <= i < 12 ==> IsDigit(s[i])
  }

  /** No identifier falls in two classes: the first character (digit or
      'o') separates accounts, the second ('-' or 'u') separates orgs from OUs. */
  lemma PatternsDisjoint(s: string)
    ensures !(IsOu(s) && IsOrg(s))
    ensures !(IsOu(s) && IsAccount(s))
    ensures !(IsOrg(s) && IsAccount(s))
  {
    if IsOu(s) { assert s[0] == "ou-"[0] && s[1] == "ou-"[1]; }
    if IsOrg(s) { assert s[0] == "o-"[0] && s[1] == "o-"[1]; }
  }

  /** Whether item triggers one of validateOrgInput's two exceptions in a
      list of length n, and which. */
  function OrgItemError(item: string, n: nat): Option<Error> {
    if !(IsOu(item) || IsOrg(item)) then Some(IncorrectConfiguration("valid values include OU-Ids or Org-Id"))
    else if IsOrg(item) && n > 1 then Some(IncorrectConfiguration("when providing Org-Id, provide single Org-Id "))
    else None
  }

  function ValidateOrgFrom(list: seq<string>, i: nat): Result<bool>
    requires i <= |list|
    decreases |list| - i
  {
    if i == |list| then Ok(true)
    else match OrgItemError(list[i], |list|)
      case Some(e) => Err(e)
      case None => ValidateOrgFrom(list, i + 1)
  }

  /** validateOrgInput: items are checked in order and the first offending
      one throws. */
  function ValidateOrgInput(list: seq<string>): Result<bool> {
    ValidateOrgFrom(list, 0)
  }

  predicate ValidOrgList(list: seq<string>) {
    forall i :: 0 <= i < |list| ==> (IsOu(list[i]) || IsOrg(list[i])) && !(IsOrg(list[i]) && |list| > 1)
  }

  lemma {:induction false} ValidateOrgFromSpec(list: seq<string>, i: nat)
    requires i <= |list|
    ensures ValidateOrgFrom(list, i) == Ok(true) <==>
      forall k :: i <= k < |list| ==> (IsOu(list[k]) || IsOrg(list[k])) && !(IsOrg(list[k]) && |list| > 1)
    ensures ValidateOrgFrom(list, i).Err? ==> ValidateOrgFrom(list, i).error.IncorrectConfiguration?
    ensures ValidateOrgFrom(list, i).Ok? ==> ValidateOrgFrom(list, i).value
    decreases |list| - i
  {
    if i < |list| {
      ValidateOrgFromSpec(list, i + 1);
    }
  }

  /** validateOrgInput returns true iff every item is an OU or an org id and
      an org id only ever stands alone; otherwise it throws
      IncorrectConfigurationException. In particular the empty list passes. */
  lemma ValidateOrgInputSpec(list: seq<string>)
    ensures ValidateOrgInput(list) == Ok(true) <==> ValidOrgList(list)
    ensures ValidateOrgInput(list).Err? ==> ValidateOrgInput(list).error.IncorrectConfiguration?
    ensures ValidateOrgInput(list).Ok? ==> ValidateOrgInput(list).value
  {
    ValidateOrgFromSpec(list, 0);
  }

  /** validateAccountInput: the first account not matching ACCOUNT_REGEX throws. */
  function ValidateAccountInput(accounts: seq<string>): (r: Outcome)
    ensures r.Pass? <==> forall i :: 0 <= i < |accounts| ==> IsAccount(accounts[i])
    ensures r.Fail? ==> exists i :: 0 <= i < |accounts| && !IsAccount(accounts[i])
                                    && r.error == IncorrectConfiguration("invalid Account Id provided:" + accounts[i])
  {
    if |accounts| == 0 then Pass
    else if !IsAccount(accounts[0]) then Fail(IncorrectConfiguration("invalid Account Id provided:" + accounts[0]))
    else
      var rest := ValidateAccountInput(accounts[1..]);
      assert forall i :: 1 <= i < |accounts| ==> accounts[i] == accounts[1..][i - 1];
      rest
  }

  /** createChunksFromArray: slices of chunkSize taken at 0, chunkSize, ...
      The source loops forever for chunkSize 0, hence the precondition. */
  method CreateChunksFromArray<T>(items: seq<T>, chunkSize: nat) returns (chunks: seq<seq<T>>)
    requires chunkSize > 0
    ensures chunks == Chunks(items, chunkSize)
  {
    chunks := [];
    var i := 0;
    while i < |items|
      invariant 0 <= i
      invariant i < |items| ==> chunks + Chunks(items[i..], chunkSize) == Chunks(items, chunkSize)
      invariant i >= |items| ==> chunks == Chunks(items, chunkSize)
      decreases |items| - i
    {
      var chunk := items[i..Min(i + chunkSize, |items|)];
      if i + chunkSize < |items| {
        assert items[i..][..chunkSize] == chunk;
        assert items[i..][chunkSize..] == items[i + chunkSize..];
      } else {
        assert items[i..] == chunk;
      }
      chunks := chunks + [chunk];
      i := i + chunkSize;
    }
  }
}
