/**
 * `getDistricts`: the district names whose record's state equals the given
 * state, ignoring case, in the order of the district data. The district
 * data file is a parameter.
 */
module LocationData {
  import opened Text

  datatype DistrictRecord = DistrictRecord(state: string, district: string)

  /** `a.toLowerCase() === b.toLowerCase()` */
  predicate SameState(a: string, b: string)
  {
    Lower(a) == Lower(b)
  }

  /** `data.filter(d => SameState(d.state, state)).map(d => d.district)` */
  function GetDistricts(data: seq<DistrictRecord>, state: string): (r: seq<string>)
    ensures |r| <= |data|
    ensures forall d :: d in r ==> exists rec :: rec in data && rec.district == d && SameState(rec.state, state)
    ensures forall rec :: rec in data && SameState(rec.state, state) ==> rec.district in r
  {
    if data == [] then []
    else
      assert forall rec :: rec in data ==> rec == data[0] || rec in data[1..];
      (if SameState(data[0].state, state) then [data[0].district] else []) + GetDistricts(data[1..], state)
  }

  /** The district names of all records, in order. */
  function Districts(data: seq<DistrictRecord>): seq<string>
  {
    if data == [] then [] else [data[0].district] + Districts(data[1..])
  }

  /** a is b with some elements deleted. */
  predicate IsSubsequence(a: seq<string>, b: seq<string>)
    decreases |a| + |b|
  {
    if a == [] then true
    else if b == [] then false
    else (a[0] == b[0] && IsSubsequence(a[1..], b[1..])) || IsSubsequence(a, b[1..])
  }

  /** The result keeps the order of the district data. */
  lemma {:induction false} GetDistrictsKeepsOrder(data: seq<DistrictRecord>, state: string)
    ensures IsSubsequence(GetDistricts(data, state), Districts(data))
  {
    if data != [] {
      GetDistrictsKeepsOrder(data[1..], state);
      var rest := GetDistricts(data[1..], state);
      var all := Districts(data);
      assert all[1..] == Districts(data[1..]);
      if SameState(data[0].state, state) {
        assert GetDistricts(data, state)[1..] == rest;
      } else {
        assert GetDistricts(data, state) == rest;
        if rest != [] {
          assert IsSubsequence(rest, all[1..]);
        }
      }
    }
  }

  /** The argument's case does not matter. */
  lemma {:induction false} GetDistrictsIgnoresCase(data: seq<DistrictRecord>, state: string)
    ensures GetDistricts(data, state) == GetDistricts(data, Lower(state))
  {
    LowerIdempotent(state);
    if data != [] {
      GetDistrictsIgnoresCase(data[1..], state);
    }
  }
}
