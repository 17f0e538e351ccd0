/**
 * Label templates and `_format_all_labels`.
 *
 * A wrap template is a string with one `{}` placeholder; it is represented by
 * the text before and after the placeholder.
 */
module Labels {

  datatype Template = Template(prefix: string, suffix: string)

  /** `template.format(s)` for a template with one placeholder. */
  function Apply(t: Template, s: string): string
  {
    t.prefix + s + t.suffix
  }

  /** The template written out as the source writes it, with its placeholder. */
  function Text(t: Template): string
  {
    t.prefix + "{}" + t.suffix
  }

  /** `SPAN_WRAP`: hides the per-item question label. */
  const SpanWrap := Template("<span style=\"display:none\">", "</span>")
  /** `HEADER_WRAP`: bold header labels. */
  const HeaderWrap := Template("**", "**")
  /** `ROW_HEADER_WRAP`: a level-5 heading for each item's row label. */
  const RowHeaderWrap := Template("##### ", "")

  lemma DefaultTemplates()
    ensures Text(SpanWrap) == "<span style=\"display:none\">{}</span>"
    ensures Text(HeaderWrap) == "**{}**"
    ensures Text(RowHeaderWrap) == "##### {}"
    ensures Apply(HeaderWrap, "Q1") == "**Q1**"
  {
  }

  /**
   * `_format_all_labels`: the template applied to every label entry, in order;
   * nothing is dropped, added or reordered.
   */
  function FormatAllLabels(labels: seq<string>, t: Template): (r: seq<string>)
    ensures |r| == |labels|
    ensures forall i :: 0 <= i < |labels| ==> r[i] == Apply(t, labels[i])
  {
    if labels == [] then [] else [Apply(t, labels[0])] + FormatAllLabels(labels[1..], t)
  }

  /** `['-'.join([item, l]) for l in labels]`: every entry prefixed by the item name and a dash. */
  function ItemPrefixed(item: string, labels: seq<string>): (r: seq<string>)
    ensures |r| == |labels|
    ensures forall i :: 0 <= i < |labels| ==> r[i] == item + "-" + labels[i]
  {
    if labels == [] then [] else [item + "-" + labels[0]] + ItemPrefixed(item, labels[1..])
  }
}
