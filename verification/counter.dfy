/**
 The sequence allocator behind turno numbers: `findOneAndUpdate` on the
 counter document keyed "ultimoTurno" with `$inc: {valor: 1}`, `upsert: true`
 and `new: true`, run sequentially.
 */
module Counter {
  import opened Models

  const ClaveTurno := "ultimoTurno"

  /** The counter's current value; an absent counter document reads as its default, 0. */
  function CounterValue(configs: map<string, Config>): int {
    if ClaveTurno in configs then configs[ClaveTurno].valor else NewConfig(ClaveTurno).valor
  }

  /**
   One call: the counter is incremented (created first when absent) and the
   incremented value is returned. Every other counter document is untouched.
   */
  function NumeroAutoincrement(configs: map<string, Config>): (r: (map<string, Config>, int))
    ensures r.1 == CounterValue(configs) + 1 == CounterValue(r.0)
    ensures ClaveTurno !in configs ==> r.1 == 1 && r.0[ClaveTurno] == Config(ClaveTurno, 1)
    ensures r.0.Keys == configs.Keys + {ClaveTurno}
    ensures ClaveTurno in configs ==> r.0[ClaveTurno] == configs[ClaveTurno].(valor := r.1)
    ensures forall k :: k in configs && k != ClaveTurno ==> r.0[k] == configs[k]
    ensures ValidConfigs(configs) ==> ValidConfigs(r.0)
  {
    var current := if ClaveTurno in configs then configs[ClaveTurno] else NewConfig(ClaveTurno);
    var next := current.(valor := current.valor + 1);
    (configs[ClaveTurno := next], next.valor)
  }

  /**
   `n` successive calls: the values handed out are consecutive, strictly
   increasing, start right after the counter's value, and the counter ends
   `n` higher.
   */
  function AllocateMany(configs: map<string, Config>, n: nat): (r: (map<string, Config>, seq<int>))
    ensures |r.1| == n
    ensures forall i :: 0 <= i < n ==> r.1[i] == CounterValue(configs) + 1 + i
    ensures forall i, j :: 0 <= i < j < n ==> r.1[i] < r.1[j]
    ensures CounterValue(r.0) == CounterValue(configs) + n
    ensures forall k :: k in configs && k != ClaveTurno ==> k in r.0 && r.0[k] == configs[k]
    decreases n
  {
    if n == 0 then (configs, [])
    else
      var (c1, v) := NumeroAutoincrement(configs);
      var (c2, vs) := AllocateMany(c1, n - 1);
      (c2, [v] + vs)
  }

  /** Every stored turno number is at most the counter's value. */
  predicate NumerosBelowCounter(st: Store) {
    forall id :: id in st.turnos ==> st.turnos[id].numeroTurno <= CounterValue(st.configs)
  }
}
