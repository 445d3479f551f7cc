/** Helpers: choosing the password, and comparing byte strings without an early exit. */
module Utils {
  import opened Errors

  /** `get_password`, with its inputs as parameters: `env` is the value of `VAULT_PASSWORD`
      when that variable is set to valid Unicode (otherwise None, and the prompt is used),
      `typed` the line read at the prompt. */
  function GetPassword(env: Option<string>, typed: string): (r: Result<string>)
    ensures env.Some? ==> r == Ok(env.value)
    ensures env.None? ==> (r.Err? <==> typed == [])
    ensures env.None? && typed != [] ==> r == Ok(typed)
    ensures r.Err? ==> r.error == PasswordRequired
  {
    if env.Some? then Ok(env.value)
    else if typed == [] then Err(PasswordRequired)
    else Ok(typed)
  }

  /** The only password ever refused is an empty one typed at the prompt: an empty
      `VAULT_PASSWORD` is accepted as it is. */
  lemma PasswordRequiredOnlyWhenTypedEmpty(env: Option<string>, typed: string)
    ensures GetPassword(env, typed) == Err(PasswordRequired) <==> env.None? && typed == []
    ensures GetPassword(Some([]), typed) == Ok([])
  {
  }

  /** `constant_time_compare`: unequal lengths are unequal; otherwise the XOR of every pair of
      bytes is OR-ed into one accumulator, with no early exit, and the inputs are equal when it
      ends up zero. The bytes are taken as bit-vectors, the form the XOR and OR work on. */
  method ConstantTimeCompare(a: seq<bv8>, b: seq<bv8>) returns (equal: bool)
    ensures equal <==> a == b
  {
    if |a| != |b| {
      return false;
    }
    var result: bv8 := 0;
    var i := 0;
    while i < |a|
      invariant 0 <= i <= |a|
      invariant result == 0 <==> a[..i] == b[..i]
    {
      XorZero(a[i], b[i]);
      assert a[..i + 1] == a[..i] + [a[i]] && b[..i + 1] == b[..i] + [b[i]];
      result := result | (a[i] ^ b[i]);
      i := i + 1;
    }
    assert a[..i] == a && b[..i] == b;
    equal := result == 0;
  }

  /** Two bit-vector bytes XOR to zero exactly when they are equal. */
  lemma XorZero(x: bv8, y: bv8)
    ensures x ^ y == 0 <==> x == y
  {
  }
}
