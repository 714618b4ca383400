/** The chart wrapper: the per-series configuration, the CSS variables it publishes, the
    tooltip, the legend and the lookup of a legend item's configuration. */
module Chart {
  import opened Wrappers

  /** The values a chart payload can hold, as far as the lookup tells them apart. */
  datatype JsValue =
    | Undefined
    | Null
    | Str(s: string)
    | Number(n: real)
    | Bool(b: bool)
    | Object(props: map<string, JsValue>)

  datatype ConfigItem = ConfigItem(labelText: string, color: string)

  /** A chart configuration as `Object.entries` lists it: keys in insertion order. */
  type ChartConfig = seq<(string, ConfigItem)>

  /** `config[key]`: the entry with that key, if any. */
  function Get(config: ChartConfig, key: string): (r: Option<ConfigItem>)
    ensures r.None? <==> forall i :: 0 <= i < |config| ==> config[i].0 != key
    ensures r.Some? ==> exists i :: 0 <= i < |config| && config[i] == (key, r.value)
  {
    if |config| == 0 then None
    else if config[0].0 == key then Some(config[0].1)
    else
      assert forall i :: 0 < i < |config| ==> config[i] == config[1..][i - 1];
      Get(config[1..], key)
  }

  /** `key in obj && typeof obj[key] === "string"`: the string under `key`, if there is one. */
  function StringProp(props: map<string, JsValue>, key: string): Option<string>
  {
    if key in props && props[key].Str? then Some(props[key].s) else None
  }

  // ------------------------------------------------------------ config lookup

  /** The key the lookup tries first: the payload's own string under `key`, else the nested
      `payload.payload`'s string under `key`, else `key` itself. */
  function LabelKey(props: map<string, JsValue>, key: string): string
  {
    var nested := if "payload" in props && props["payload"].Object? then Some(props["payload"].props) else None;
    if StringProp(props, key).Some? then StringProp(props, key).value
    else if nested.Some? && StringProp(nested.value, key).Some? then StringProp(nested.value, key).value
    else key
  }

  /** `getPayloadConfigFromPayload`: nothing for a payload that is not an object; otherwise
      the entry under the label key when there is one, and the entry under `key` if not. */
  function PayloadConfig(config: ChartConfig, payload: JsValue, key: string): (r: Option<ConfigItem>)
    ensures !payload.Object? ==> r.None?
    ensures payload.Object? && Get(config, LabelKey(payload.props, key)).Some? ==>
      r == Get(config, LabelKey(payload.props, key))
    ensures payload.Object? && Get(config, LabelKey(payload.props, key)).None? ==> r == Get(config, key)
  {
    match payload
    case Object(props) =>
      var labelKey := LabelKey(props, key);
      if Get(config, labelKey).Some? then Get(config, labelKey) else Get(config, key)
    case _ => None
  }

  /** The payload's own string under the key takes precedence over a nested one. */
  lemma DirectStringWins(config: ChartConfig, props: map<string, JsValue>, key: string, direct: string)
    requires key in props && props[key] == Str(direct) && Get(config, direct).Some?
    ensures PayloadConfig(config, Object(props), key) == Get(config, direct)
  {
  }

  /** Without a string under the key, directly or nested, the lookup is the plain
      `config[key]`. */
  lemma NoStringMeansPlainKey(config: ChartConfig, props: map<string, JsValue>, key: string)
    requires StringProp(props, key).None?
    requires !("payload" in props && props["payload"].Object? && StringProp(props["payload"].props, key).Some?)
    ensures PayloadConfig(config, Object(props), key) == Get(config, key)
  {
  }

  /** Whatever the payload, a result is one of the configured entries. */
  lemma PayloadConfigIsConfigured(config: ChartConfig, payload: JsValue, key: string)
    ensures PayloadConfig(config, payload, key).Some? ==>
      exists i :: 0 <= i < |config| && config[i].1 == PayloadConfig(config, payload, key).value
  {
  }

  // ------------------------------------------------------------ CSS variables

  /** The style of `ChartContainer`: a `--color-<key>` and a `--label-<key>` variable per
      configured series, in configuration order. */
  function CssVariables(config: ChartConfig): (vars: seq<(string, string)>)
    ensures |vars| == 2 * |config|
    ensures forall i :: 0 <= i < |config| ==>
      && vars[2 * i] == ("--color-" + config[i].0, config[i].1.color)
      && vars[2 * i + 1] == ("--label-" + config[i].0, config[i].1.labelText)
  {
    if config == [] then []
    else
      var n := |config| - 1;
      var init := CssVariables(config[..n]);
      var last := [("--color-" + config[n].0, config[n].1.color), ("--label-" + config[n].0, config[n].1.labelText)];
      assert forall i :: 0 <= i < n ==> config[..n][i] == config[i];
      init + last
  }

  /** With distinct series keys the variable names are distinct, so `Object.fromEntries`
      keeps every one of them. */
  lemma CssVariableNamesDistinct(config: ChartConfig, i: int, j: int)
    requires forall a, b :: 0 <= a < b < |config| ==> config[a].0 != config[b].0
    requires 0 <= i < j < |CssVariables(config)|
    ensures CssVariables(config)[i].0 != CssVariables(config)[j].0
  {
    var vars := CssVariables(config);
    var a, b := i / 2, j / 2;
    assert i == 2 * a + i % 2 && j == 2 * b + j % 2;
    var ni, nj := vars[i].0, vars[j].0;
    if a == b {
      assert i == 2 * a && j == 2 * a + 1;
      assert ni == "--color-" + config[a].0 && nj == "--label-" + config[a].0;
      assert ni[2] == 'c' && nj[2] == 'l';
    } else {
      var ka, kb := config[a].0, config[b].0;
      assert ni == (if i % 2 == 0 then "--color-" else "--label-") + ka;
      assert nj == (if j % 2 == 0 then "--color-" else "--label-") + kb;
      assert ni[8..] == ka && nj[8..] == kb;
      assert ni[2] == (if i % 2 == 0 then 'c' else 'l') && nj[2] == (if j % 2 == 0 then 'c' else 'l');
    }
  }

  // ------------------------------------------------------------ tooltip and legend

  datatype TooltipItem = TooltipItem(dataKey: string, value: string)

  datatype TooltipRow = TooltipRow(color: string, labelText: string, value: string)

  datatype Tooltip = Tooltip(heading: string, rows: seq<TooltipRow>)

  function TooltipRows(config: ChartConfig, payload: seq<TooltipItem>): (rows: seq<TooltipRow>)
    ensures |rows| <= |payload|
  {
    if payload == [] then []
    else
      var rest := TooltipRows(config, payload[..|payload| - 1]);
      var item := payload[|payload| - 1];
      if Get(config, item.dataKey).Some? then rest + [RowFor(config, item)] else rest
  }

  /** Every configured item of the payload gives one row, in payload order, and items
      without configuration give none. */
  lemma {:induction false} TooltipRowsAreConfiguredItems(config: ChartConfig, payload: seq<TooltipItem>)
    ensures |TooltipRows(config, payload)| == |Configured(config, payload)|
    ensures forall k :: 0 <= k < |Configured(config, payload)| ==>
      TooltipRows(config, payload)[k] == RowFor(config, payload[Configured(config, payload)[k]])
  {
    if payload != [] {
      var n := |payload| - 1;
      var init := payload[..n];
      TooltipRowsAreConfiguredItems(config, init);
      var rows, idx := TooltipRows(config, init), Configured(config, init);
      var allRows, allIdx := TooltipRows(config, payload), Configured(config, payload);
      LastItemStep(config, payload);
      forall k | 0 <= k < |allIdx|
        ensures allRows[k] == RowFor(config, payload[allIdx[k]])
      {
        if k < |idx| {
          assert allRows[k] == rows[k] && allIdx[k] == idx[k];
          assert payload[idx[k]] == init[idx[k]];
        }
      }
    }
  }

  /** The last item adds one row and one position when configured, and neither otherwise. */
  lemma LastItemStep(config: ChartConfig, payload: seq<TooltipItem>)
    requires payload != []
    ensures var n := |payload| - 1;
      if Get(config, payload[n].dataKey).Some? then
        && TooltipRows(config, payload) == TooltipRows(config, payload[..n]) + [RowFor(config, payload[n])]
        && Configured(config, payload) == Configured(config, payload[..n]) + [n]
      else
        && TooltipRows(config, payload) == TooltipRows(config, payload[..n])
        && Configured(config, payload) == Configured(config, payload[..n])
  {
  }

  /** The row of a configured item: the configured colour and label with the item's value. */
  function RowFor(config: ChartConfig, item: TooltipItem): TooltipRow
    requires Get(config, item.dataKey).Some?
  {
    var c := Get(config, item.dataKey).value;
    TooltipRow(c.color, c.labelText, item.value)
  }

  /** The payload positions whose data key is configured, in increasing order. */
  function Configured(config: ChartConfig, payload: seq<TooltipItem>): (idx: seq<int>)
    ensures forall k :: 0 <= k < |idx| ==> 0 <= idx[k] < |payload| && Get(config, payload[idx[k]].dataKey).Some?
    ensures forall k, l :: 0 <= k < l < |idx| ==> idx[k] < idx[l]
    ensures forall p :: 0 <= p < |payload| && Get(config, payload[p].dataKey).Some? ==> p in idx
  {
    if payload == [] then []
    else
      var n := |payload| - 1;
      var rest := Configured(config, payload[..n]);
      assert forall p :: 0 <= p < n ==> payload[..n][p] == payload[p];
      if Get(config, payload[n].dataKey).Some? then rest + [n] else rest
  }

  /** `ChartTooltipContent`: nothing unless the tooltip is active, has a payload and sits in
      a chart container; then the label and the rows of the configured items. */
  function TooltipContent(active: bool, payload: Option<seq<TooltipItem>>, config: Option<ChartConfig>, heading: string): (t: Option<Tooltip>)
    ensures t.Some? <==> active && payload.Some? && |payload.value| > 0 && config.Some?
    ensures t.Some? ==> t.value == Tooltip(heading, TooltipRows(config.value, payload.value))
  {
    if !active || payload.None? || |payload.value| == 0 || config.None? then None
    else Some(Tooltip(heading, TooltipRows(config.value, payload.value)))
  }

  /** `${nameKey || item.dataKey || "value"}`: the first non-empty of the two, else "value". */
  function LegendKey(nameKey: Option<string>, dataKey: Option<string>): (key: string)
    ensures nameKey.Some? && nameKey.value != "" ==> key == nameKey.value
    ensures (nameKey.None? || nameKey.value == "") && dataKey.Some? && dataKey.value != "" ==> key == dataKey.value
    ensures (nameKey.None? || nameKey.value == "") && (dataKey.None? || dataKey.value == "") ==> key == "value"
  {
    if nameKey.Some? && nameKey.value != "" then nameKey.value
    else if dataKey.Some? && dataKey.value != "" then dataKey.value
    else "value"
  }

  /** What `ChartLegendContent` does: throws outside a chart container, shows nothing for an
      empty payload, and otherwise one entry per item carrying its configured label. */
  datatype Legend = LegendThrows | NoLegend | LegendEntries(labels: seq<Option<string>>)

  function LegendContent(config: Option<ChartConfig>, payload: seq<JsValue>, nameKey: Option<string>): (l: Legend)
    ensures config.None? <==> l == LegendThrows
    ensures config.Some? && payload == [] ==> l == NoLegend
    ensures l.LegendEntries? ==> |l.labels| == |payload| && forall i :: 0 <= i < |payload| ==>
      var item := payload[i];
      var dataKey := if item.Object? then StringProp(item.props, "dataKey") else None;
      var c := PayloadConfig(config.value, item, LegendKey(nameKey, dataKey));
      l.labels[i] == if c.Some? then Some(c.value.labelText) else None
  {
    if config.None? then LegendThrows
    else if payload == [] then NoLegend
    else
      LegendEntries(seq(|payload|, i requires 0 <= i < |payload| =>
        var item := payload[i];
        var dataKey := if item.Object? then StringProp(item.props, "dataKey") else None;
        var c := PayloadConfig(config.value, item, LegendKey(nameKey, dataKey));
        if c.Some? then Some(c.value.labelText) else None))
  }
}
