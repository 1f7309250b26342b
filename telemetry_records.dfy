/** The records that the telemetry callbacks of robot.py (lines 57-160)
    build from one subscription tuple: fixed index-to-name maps for
    position, attitude and IMU, a shape check plus 16 per-wheel fields for
    the ESC stream, and a key table with an indexed fallback for the status
    stream. */
module TelemetryRecords {
  import opened Decimal

  /** A Python value as delivered by the SDK: a number, a string, or a
      list/tuple of values. */
  datatype Value = Num(x: real) | Text(s: string) | Items(xs: seq<Value>)

  /** One row of a per-stream list: a dict from column name to value. */
  type Record = map<string, Value>

  // ---------------------------------------------------------------------
  // Position, attitude, IMU (robot.py lines 57-101)

  /** robot.py lines 61-68. */
  function PositionRecord(timestamp: real, subInfo: seq<Value>): (r: Record)
    requires |subInfo| >= 3
    ensures r.Keys == {"timestamp", "pos_x_m", "pos_y_m", "pos_z_deg_from_start"}
    ensures |r| == 4
    ensures r["timestamp"] == Num(timestamp)
    ensures r["pos_x_m"] == subInfo[0] && r["pos_y_m"] == subInfo[1]
    ensures r["pos_z_deg_from_start"] == subInfo[2]
  {
    map["timestamp" := Num(timestamp),
        "pos_x_m" := subInfo[0],
        "pos_y_m" := subInfo[1],
        "pos_z_deg_from_start" := subInfo[2]]
  }

  /** robot.py lines 76-83. */
  function AttitudeRecord(timestamp: real, subInfo: seq<Value>): (r: Record)
    requires |subInfo| >= 3
    ensures r.Keys == {"timestamp", "pitch_deg", "roll_deg", "yaw_deg"}
    ensures |r| == 4
    ensures r["timestamp"] == Num(timestamp)
    ensures r["pitch_deg"] == subInfo[0] && r["roll_deg"] == subInfo[1] && r["yaw_deg"] == subInfo[2]
  {
    map["timestamp" := Num(timestamp),
        "pitch_deg" := subInfo[0],
        "roll_deg" := subInfo[1],
        "yaw_deg" := subInfo[2]]
  }

  /** robot.py lines 91-101: accelerations then gyro rates, in tuple order. */
  function ImuRecord(timestamp: real, subInfo: seq<Value>): (r: Record)
    requires |subInfo| >= 6
    ensures r.Keys == {"timestamp", "acc_x_g", "acc_y_g", "acc_z_g", "gyro_x_dps", "gyro_y_dps", "gyro_z_dps"}
    ensures |r| == 7
    ensures r["timestamp"] == Num(timestamp)
    ensures r["acc_x_g"] == subInfo[0] && r["acc_y_g"] == subInfo[1] && r["acc_z_g"] == subInfo[2]
    ensures r["gyro_x_dps"] == subInfo[3] && r["gyro_y_dps"] == subInfo[4] && r["gyro_z_dps"] == subInfo[5]
  {
    map["timestamp" := Num(timestamp),
        "acc_x_g" := subInfo[0],
        "acc_y_g" := subInfo[1],
        "acc_z_g" := subInfo[2],
        "gyro_x_dps" := subInfo[3],
        "gyro_y_dps" := subInfo[4],
        "gyro_z_dps" := subInfo[5]]
  }

  // ---------------------------------------------------------------------
  // ESC (robot.py lines 105-127)

  /** Wheel order of line 117. */
  const WheelLabels: seq<string> := ["fl", "fr", "bl", "br"]

  /** The four parts of an ESC tuple, in order (lines 120-123). */
  const EscFields: seq<string> := ["state", "speed", "angle", "current"]

  /** The shape test of lines 114-116: at least four parts, each of the first
      four a list or tuple of at least four values. */
  predicate EscShaped(subInfo: seq<Value>)
  {
    && |subInfo| >= 4
    && forall k :: 0 <= k < 4 ==> subInfo[k].Items? && |subInfo[k].xs| >= 4
  }

  /** `esc_{field}_{wheel}`, with part k and wheel i. */
  function EscKey(k: nat, i: nat): string
    requires k < 4 && i < 4
  {
    "esc_" + EscFields[k] + "_" + WheelLabels[i]
  }

  /** Recover the part of an ESC key from its fifth and sixth characters. */
  function EscKeyField(key: string): int
  {
    if |key| < 6 then -1
    else if key[4] == 's' && key[5] == 't' then 0
    else if key[4] == 's' then 1
    else if key[4] == 'a' then 2
    else 3
  }

  /** Recover the wheel of an ESC key from its last two characters. */
  function EscKeyWheel(key: string): int
  {
    if |key| < 2 then -1
    else
      var tail := key[|key| - 2..];
      if tail == "fl" then 0 else if tail == "fr" then 1 else if tail == "bl" then 2 else 3
  }

  /** Every ESC key names its part and wheel, so the 16 keys are distinct. */
  lemma EscKeyDecodes(k: nat, i: nat)
    requires k < 4 && i < 4
    ensures EscKeyField(EscKey(k, i)) == k
    ensures EscKeyWheel(EscKey(k, i)) == i
    ensures EscKey(k, i) != "timestamp"
  {
    var key := EscKey(k, i);
    assert key[..4] == "esc_";
    assert key[4..4 + |EscFields[k]|] == EscFields[k];
    assert key[|key| - 2..] == WheelLabels[i];
  }

  lemma EscKeyInjective(k: nat, i: nat, k': nat, i': nat)
    requires k < 4 && i < 4 && k' < 4 && i' < 4
    requires EscKey(k, i) == EscKey(k', i')
    ensures k == k' && i == i'
  {
    EscKeyDecodes(k, i);
    EscKeyDecodes(k', i');
  }

  /** The record after the loop of lines 119-123 has handled wheels 0 .. n-1. */
  function EscWheels(timestamp: real, subInfo: seq<Value>, n: nat): Record
    requires EscShaped(subInfo) && n <= 4
  {
    if n == 0 then map["timestamp" := Num(timestamp)]
    else
      var i := n - 1;
      EscWheels(timestamp, subInfo, i)
        [EscKey(0, i) := subInfo[0].xs[i]]
        [EscKey(1, i) := subInfo[1].xs[i]]
        [EscKey(2, i) := subInfo[2].xs[i]]
        [EscKey(3, i) := subInfo[3].xs[i]]
  }

  /** robot.py lines 110-126; `rendered` is `str(sub_info)`. */
  function EscRecord(timestamp: real, subInfo: seq<Value>, rendered: string): Record
  {
    if EscShaped(subInfo) then EscWheels(timestamp, subInfo, 4)
    else map["timestamp" := Num(timestamp), "raw_esc_data" := Text(rendered)]
  }

  /** The keys written for wheels below n. */
  ghost function EscKeysBelow(n: nat): set<string>
    requires n <= 4
  {
    set k: nat, i: nat | k < 4 && i < n :: EscKey(k, i)
  }

  lemma EscKeysBelowNext(n: nat)
    requires n < 4
    ensures EscKeysBelow(n + 1) == EscKeysBelow(n) + {EscKey(0, n), EscKey(1, n), EscKey(2, n), EscKey(3, n)}
  {
    forall key | key in EscKeysBelow(n + 1)
      ensures key in EscKeysBelow(n) + {EscKey(0, n), EscKey(1, n), EscKey(2, n), EscKey(3, n)}
    {
      var k: nat, i: nat :| k < 4 && i < n + 1 && key == EscKey(k, i);
      if i < n {
        assert key in EscKeysBelow(n);
      }
    }
  }

  /** A key for wheel i is neither the timestamp nor a key of an earlier wheel. */
  lemma EscKeyFresh(k: nat, i: nat)
    requires k < 4 && i < 4
    ensures EscKey(k, i) !in {"timestamp"} + EscKeysBelow(i)
  {
    EscKeyDecodes(k, i);
    if EscKey(k, i) in EscKeysBelow(i) {
      var k': nat, i': nat :| k' < 4 && i' < i && EscKey(k', i') == EscKey(k, i);
      EscKeyInjective(k, i, k', i');
    }
  }

  /** Adding a key that is not yet present grows the record by one entry. */
  lemma AddFresh(m: Record, key: string, v: Value)
    requires key !in m
    ensures m[key := v].Keys == m.Keys + {key}
    ensures |m[key := v]| == |m| + 1
  {
  }

  /** Set bookkeeping for a record that gains the keys of the next batch. */
  lemma ExtendKeys(keys: set<string>, below: set<string>, next: set<string>, added: set<string>)
    requires keys == {"timestamp"} + below
    requires next == below + added
    ensures keys + added == {"timestamp"} + next
  {
  }

  /** Four writes under distinct fresh keys add exactly those four keys. */
  lemma AddFresh4(m: Record, k0: string, k1: string, k2: string, k3: string,
                  v0: Value, v1: Value, v2: Value, v3: Value)
    requires k0 !in m && k1 !in m && k2 !in m && k3 !in m
    requires k0 != k1 && k0 != k2 && k0 != k3 && k1 != k2 && k1 != k3 && k2 != k3
    ensures m[k0 := v0][k1 := v1][k2 := v2][k3 := v3].Keys == m.Keys + {k0, k1, k2, k3}
    ensures |m[k0 := v0][k1 := v1][k2 := v2][k3 := v3]| == |m| + 4
  {
    AddFresh(m, k0, v0);
    AddFresh(m[k0 := v0], k1, v1);
    AddFresh(m[k0 := v0][k1 := v1], k2, v2);
    AddFresh(m[k0 := v0][k1 := v1][k2 := v2], k3, v3);
  }

  /** A write under another key leaves an entry as it was. */
  lemma UpdateKeeps(m: Record, key: string, v: Value, other: string)
    requires other in m && other != key
    ensures other in m[key := v] && m[key := v][other] == m[other]
  {
  }

  /** The four keys written for one wheel are pairwise distinct. */
  lemma EscWheelKeysDistinct(i: nat)
    requires i < 4
    ensures EscKey(0, i) != EscKey(1, i) && EscKey(0, i) != EscKey(2, i) && EscKey(0, i) != EscKey(3, i)
    ensures EscKey(1, i) != EscKey(2, i) && EscKey(1, i) != EscKey(3, i) && EscKey(2, i) != EscKey(3, i)
  {
    EscKeyDecodes(0, i);
    EscKeyDecodes(1, i);
    EscKeyDecodes(2, i);
    EscKeyDecodes(3, i);
  }

  lemma {:induction false} EscWheelsKeys(timestamp: real, subInfo: seq<Value>, n: nat)
    requires EscShaped(subInfo) && n <= 4
    ensures EscWheels(timestamp, subInfo, n).Keys == {"timestamp"} + EscKeysBelow(n)
    ensures |EscWheels(timestamp, subInfo, n)| == 1 + 4 * n
  {
    if n > 0 {
      var i := n - 1;
      var m := EscWheels(timestamp, subInfo, i);
      var k0, k1, k2, k3 := EscKey(0, i), EscKey(1, i), EscKey(2, i), EscKey(3, i);
      var ks := {"timestamp"} + EscKeysBelow(i);
      EscWheelsKeys(timestamp, subInfo, i);
      assert k0 !in ks && k1 !in ks && k2 !in ks && k3 !in ks by {
        EscKeyFresh(0, i);
        EscKeyFresh(1, i);
        EscKeyFresh(2, i);
        EscKeyFresh(3, i);
      }
      assert k0 != k1 && k0 != k2 && k0 != k3 && k1 != k2 && k1 != k3 && k2 != k3 by {
        EscWheelKeysDistinct(i);
      }
      AddFresh4(m, k0, k1, k2, k3, subInfo[0].xs[i], subInfo[1].xs[i], subInfo[2].xs[i], subInfo[3].xs[i]);
      assert EscKeysBelow(n) == EscKeysBelow(i) + {k0, k1, k2, k3} by { EscKeysBelowNext(i); }
      ExtendKeys(m.Keys, EscKeysBelow(i), EscKeysBelow(n), {k0, k1, k2, k3});
    }
  }

  /** One wheel's four writes change exactly that wheel's four keys. */
  lemma EscWheelsNext(timestamp: real, subInfo: seq<Value>, j: nat, key: string)
    requires EscShaped(subInfo) && j < 4
    ensures forall k: nat :: k < 4 ==>
              EscKey(k, j) in EscWheels(timestamp, subInfo, j + 1) &&
              EscWheels(timestamp, subInfo, j + 1)[EscKey(k, j)] == subInfo[k].xs[j]
    ensures key !in {EscKey(0, j), EscKey(1, j), EscKey(2, j), EscKey(3, j)} ==>
              (key in EscWheels(timestamp, subInfo, j + 1) <==> key in EscWheels(timestamp, subInfo, j)) &&
              (key in EscWheels(timestamp, subInfo, j) ==>
                 EscWheels(timestamp, subInfo, j + 1)[key] == EscWheels(timestamp, subInfo, j)[key])
  {
    EscKeyDecodes(0, j);
    EscKeyDecodes(1, j);
    EscKeyDecodes(2, j);
    EscKeyDecodes(3, j);
  }

  lemma {:induction false} EscWheelsValues(timestamp: real, subInfo: seq<Value>, n: nat)
    requires EscShaped(subInfo) && n <= 4
    ensures "timestamp" in EscWheels(timestamp, subInfo, n)
    ensures EscWheels(timestamp, subInfo, n)["timestamp"] == Num(timestamp)
    ensures forall k: nat, i: nat :: k < 4 && i < n ==>
              EscKey(k, i) in EscWheels(timestamp, subInfo, n) &&
              EscWheels(timestamp, subInfo, n)[EscKey(k, i)] == subInfo[k].xs[i]
  {
    if n > 0 {
      var j := n - 1;
      EscWheelsValues(timestamp, subInfo, j);
      EscKeyFresh(0, j);
      EscKeyFresh(1, j);
      EscKeyFresh(2, j);
      EscKeyFresh(3, j);
      EscWheelsNext(timestamp, subInfo, j, "timestamp");
      forall k: nat, i: nat | k < 4 && i < n
        ensures EscKey(k, i) in EscWheels(timestamp, subInfo, n)
        ensures EscWheels(timestamp, subInfo, n)[EscKey(k, i)] == subInfo[k].xs[i]
      {
        if i < j {
          assert EscKey(k, i) in EscKeysBelow(j);
          EscWheelsNext(timestamp, subInfo, j, EscKey(k, i));
        }
      }
    }
  }

  /** A well-shaped ESC tuple gives the timestamp plus exactly the 16 keys
      `esc_{state,speed,angle,current}_{fl,fr,bl,br}`, each holding
      sub_info[k][i] for part k and wheel i; any other input gives exactly
      the timestamp and the raw text. */
  lemma EscRecordShape(timestamp: real, subInfo: seq<Value>, rendered: string)
    ensures var r := EscRecord(timestamp, subInfo, rendered);
            && "timestamp" in r && r["timestamp"] == Num(timestamp)
            && (EscShaped(subInfo) ==>
                  && r.Keys == {"timestamp"} + EscKeysBelow(4)
                  && |r| == 17
                  && forall k: nat, i: nat :: k < 4 && i < 4 ==>
                       EscKey(k, i) in r && r[EscKey(k, i)] == subInfo[k].xs[i])
            && (!EscShaped(subInfo) ==>
                  && r.Keys == {"timestamp", "raw_esc_data"}
                  && r["raw_esc_data"] == Text(rendered))
  {
    if EscShaped(subInfo) {
      EscWheelsKeys(timestamp, subInfo, 4);
      EscWheelsValues(timestamp, subInfo, 4);
    }
  }

  /** Lines 111-126 as written: the record is filled key by key. */
  method BuildEscRecord(timestamp: real, subInfo: seq<Value>, rendered: string) returns (record: Record)
    ensures record == EscRecord(timestamp, subInfo, rendered)
  {
    record := map["timestamp" := Num(timestamp)];
    if |subInfo| >= 4 && forall k :: 0 <= k < 4 ==> subInfo[k].Items? && |subInfo[k].xs| >= 4 {
      var i := 0;
      while i < 4
        invariant 0 <= i <= 4
        invariant record == EscWheels(timestamp, subInfo, i)
      {
        record := record[EscKey(0, i) := subInfo[0].xs[i]];
        record := record[EscKey(1, i) := subInfo[1].xs[i]];
        record := record[EscKey(2, i) := subInfo[2].xs[i]];
        record := record[EscKey(3, i) := subInfo[3].xs[i]];
        i := i + 1;
      }
    } else {
      record := record["raw_esc_data" := Text(rendered)];
    }
  }

  // ---------------------------------------------------------------------
  // Status (robot.py lines 131-160)

  /** The key table of lines 140-152. */
  const StatusMeaningfulKeys: seq<string> := [
    "chassis_is_moving",
    "chassis_force_protected",
    "chassis_impact_protected",
    "chassis_is_static",
    "chassis_is_unbalanced",
    "chassis_speed_x",
    "chassis_speed_y",
    "chassis_angle_speed",
    "chassis_temp_overheat",
    "chassis_battery_low",
    "chassis_firmware_error"]

  /** Lines 155-158: the column for the element at index i. */
  function StatusKey(i: nat): string
  {
    if i < |StatusMeaningfulKeys| then "status_" + StatusMeaningfulKeys[i]
    else "status_val_" + NatToString(i)
  }

  /** The position of s in a table, or the table's length when absent. */
  function IndexOf(table: seq<string>, s: string): (j: nat)
    ensures j <= |table|
    ensures j < |table| ==> table[j] == s
  {
    if table == [] then 0
    else if table[0] == s then 0
    else 1 + IndexOf(table[1..], s)
  }

  /** Recover the index from a status column name. */
  function StatusIndex(key: string): nat
  {
    if |key| >= 11 && key[..11] == "status_val_" && forall j :: 11 <= j < |key| ==> IsDigit(key[j])
    then ParseDecimal(key[11..])
    else if |key| >= 7 then IndexOf(StatusMeaningfulKeys, key[7..])
    else |StatusMeaningfulKeys|
  }

  lemma MeaningfulKeysDistinct()
    ensures forall a, b :: 0 <= a < b < |StatusMeaningfulKeys| ==> StatusMeaningfulKeys[a] != StatusMeaningfulKeys[b]
  {
  }

  /** In a table without repeats, IndexOf finds each entry at its own position. */
  lemma {:induction false} IndexOfDistinct(table: seq<string>, i: nat)
    requires i < |table|
    requires forall a, b :: 0 <= a < b < |table| ==> table[a] != table[b]
    ensures IndexOf(table, table[i]) == i
  {
    if i > 0 {
      assert table[0] != table[i];
      IndexOfDistinct(table[1..], i - 1);
    }
  }

  /** Every status column names its index, so the columns are distinct; none
      is the timestamp column. */
  lemma StatusKeyDecodes(i: nat)
    ensures StatusIndex(StatusKey(i)) == i
    ensures StatusKey(i) != "timestamp"
  {
    var key := StatusKey(i);
    assert key[..7] == "status_";
    if i < |StatusMeaningfulKeys| {
      assert key[7..] == StatusMeaningfulKeys[i];
      assert key[7] == 'c';
      assert key[..11] != "status_val_" by {
        assert key[..11][7] == 'c';
      }
      MeaningfulKeysDistinct();
      IndexOfDistinct(StatusMeaningfulKeys, i);
    } else {
      assert key[..11] == "status_val_";
      assert key[11..] == NatToString(i);
      ParseNatToString(i);
    }
  }

  lemma StatusKeyInjective(i: nat, j: nat)
    requires StatusKey(i) == StatusKey(j)
    ensures i == j
  {
    StatusKeyDecodes(i);
    StatusKeyDecodes(j);
  }

  /** The record after the loop of lines 154-158 has handled the first n elements. */
  function StatusPrefix(timestamp: real, subInfo: seq<Value>, n: nat): Record
    requires n <= |subInfo|
  {
    if n == 0 then map["timestamp" := Num(timestamp)]
    else StatusPrefix(timestamp, subInfo, n - 1)[StatusKey(n - 1) := subInfo[n - 1]]
  }

  /** robot.py lines 135-158. */
  function StatusRecord(timestamp: real, subInfo: seq<Value>): Record
  {
    StatusPrefix(timestamp, subInfo, |subInfo|)
  }

  ghost function StatusKeysBelow(n: nat): set<string>
  {
    set i: nat | i < n :: StatusKey(i)
  }

  lemma StatusKeysBelowNext(n: nat)
    ensures StatusKeysBelow(n + 1) == StatusKeysBelow(n) + {StatusKey(n)}
  {
    forall key | key in StatusKeysBelow(n + 1)
      ensures key in StatusKeysBelow(n) + {StatusKey(n)}
    {
      var i: nat :| i < n + 1 && key == StatusKey(i);
      if i < n {
        assert key in StatusKeysBelow(n);
      }
    }
  }

  /** The column of element n is neither the timestamp nor an earlier column. */
  lemma StatusKeyFresh(n: nat)
    ensures StatusKey(n) !in {"timestamp"} + StatusKeysBelow(n)
  {
    StatusKeyDecodes(n);
    if StatusKey(n) in StatusKeysBelow(n) {
      var j: nat :| j < n && StatusKey(j) == StatusKey(n);
      StatusKeyInjective(j, n);
    }
  }

  lemma {:induction false} StatusPrefixKeys(timestamp: real, subInfo: seq<Value>, n: nat)
    requires n <= |subInfo|
    ensures StatusPrefix(timestamp, subInfo, n).Keys == {"timestamp"} + StatusKeysBelow(n)
    ensures |StatusPrefix(timestamp, subInfo, n)| == n + 1
  {
    if n > 0 {
      var m := StatusPrefix(timestamp, subInfo, n - 1);
      var key := StatusKey(n - 1);
      StatusPrefixKeys(timestamp, subInfo, n - 1);
      assert key !in m by { StatusKeyFresh(n - 1); }
      AddFresh(m, key, subInfo[n - 1]);
      assert StatusKeysBelow(n) == StatusKeysBelow(n - 1) + {key} by { StatusKeysBelowNext(n - 1); }
      ExtendKeys(m.Keys, StatusKeysBelow(n - 1), StatusKeysBelow(n), {key});
    }
  }

  lemma {:induction false} StatusPrefixValues(timestamp: real, subInfo: seq<Value>, n: nat)
    requires n <= |subInfo|
    ensures "timestamp" in StatusPrefix(timestamp, subInfo, n)
    ensures StatusPrefix(timestamp, subInfo, n)["timestamp"] == Num(timestamp)
    ensures forall i: nat :: i < n ==>
              StatusKey(i) in StatusPrefix(timestamp, subInfo, n) &&
              StatusPrefix(timestamp, subInfo, n)[StatusKey(i)] == subInfo[i]
  {
    if n > 0 {
      var m := StatusPrefix(timestamp, subInfo, n - 1);
      var key := StatusKey(n - 1);
      StatusPrefixValues(timestamp, subInfo, n - 1);
      forall i: nat | i < n - 1
        ensures StatusKey(i) in StatusPrefix(timestamp, subInfo, n)
        ensures StatusPrefix(timestamp, subInfo, n)[StatusKey(i)] == subInfo[i]
      {
        assert StatusKey(i) != key by {
          assert StatusKey(i) in StatusKeysBelow(n - 1);
          StatusKeyFresh(n - 1);
        }
        UpdateKeeps(m, key, subInfo[n - 1], StatusKey(i));
      }
      assert key != "timestamp" by { StatusKeyDecodes(n - 1); }
      UpdateKeeps(m, key, subInfo[n - 1], "timestamp");
    }
  }

  /** A status record holds the timestamp and one column per element: index
      i < 11 under "status_" + the table's i-th name, any later index under
      "status_val_" + its decimal, the value unchanged; so it has exactly
      len(sub_info) + 1 keys. */
  lemma StatusRecordShape(timestamp: real, subInfo: seq<Value>)
    ensures var r := StatusRecord(timestamp, subInfo);
            && r.Keys == {"timestamp"} + StatusKeysBelow(|subInfo|)
            && |r| == |subInfo| + 1
            && "timestamp" in r && r["timestamp"] == Num(timestamp)
            && (forall i: nat :: i < |subInfo| && i < 11 ==>
                  var key := "status_" + StatusMeaningfulKeys[i];
                  key in r && r[key] == subInfo[i])
            && (forall i: nat :: 11 <= i < |subInfo| ==>
                  var key := "status_val_" + NatToString(i);
                  key in r && r[key] == subInfo[i])
  {
    StatusPrefixKeys(timestamp, subInfo, |subInfo|);
    StatusPrefixValues(timestamp, subInfo, |subInfo|);
    var r := StatusRecord(timestamp, subInfo);
    forall i: nat | i < |subInfo| && i < 11
      ensures "status_" + StatusMeaningfulKeys[i] in r && r["status_" + StatusMeaningfulKeys[i]] == subInfo[i]
    {
      assert StatusKey(i) == "status_" + StatusMeaningfulKeys[i];
    }
    forall i: nat | 11 <= i < |subInfo|
      ensures "status_val_" + NatToString(i) in r && r["status_val_" + NatToString(i)] == subInfo[i]
    {
      assert StatusKey(i) == "status_val_" + NatToString(i);
    }
  }

  /** Lines 136-158 as written: one key per element, in order. */
  method BuildStatusRecord(timestamp: real, subInfo: seq<Value>) returns (record: Record)
    ensures record == StatusRecord(timestamp, subInfo)
  {
    record := map["timestamp" := Num(timestamp)];
    var i := 0;
    while i < |subInfo|
      invariant 0 <= i <= |subInfo|
      invariant record == StatusPrefix(timestamp, subInfo, i)
    {
      if i < |StatusMeaningfulKeys| {
        record := record["status_" + StatusMeaningfulKeys[i] := subInfo[i]];
      } else {
        record := record["status_val_" + NatToString(i) := subInfo[i]];
      }
      i := i + 1;
    }
  }
}
