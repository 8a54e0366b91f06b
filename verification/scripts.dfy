/**
 * `generate_tagging_script`: the bash and Terraform renderings of a list of tag
 * operations, and the format dispatch. Each operation's tags are given in the
 * order the dict iterates them.
 */
module Scripts {
  import opened Wrappers
  import opened Errors
  import opened Text
  import opened Resources

  /** An operation as the renderers read it: its tags as the ordered (key, value) items of the dict. */
  datatype RenderOp = RenderOp(resourceId: string, kind: ResourceType, region: string, items: seq<(string, string)>)

  /** What `generate_tagging_script` returns; the text of the Python program is not modelled, only the operations it embeds. */
  datatype Script = Rendered(text: string) | PythonProgram(operations: seq<RenderOp>)

  /** `generate_tagging_script`: bash, python or terraform; any other name raises ValueError. */
  function GenerateScript(ops: seq<RenderOp>, format: string): (r: Result<Script, Error>)
    ensures r.Ok? <==> format == "bash" || format == "python" || format == "terraform"
    ensures r.Err? ==> r.error == ValueError("Unsupported output format: " + format)
    ensures format == "bash" ==> r == Ok(Rendered(Join(BashLines(ops), "\n")))
    ensures format == "terraform" ==> r == Ok(Rendered(Join(TerraformBlocks(ops, 0), "\n")))
    ensures format == "python" ==> r == Ok(PythonProgram(ops))
  {
    if format == "bash" then Ok(Rendered(Join(BashLines(ops), "\n")))
    else if format == "python" then Ok(PythonProgram(ops))
    else if format == "terraform" then Ok(Rendered(Join(TerraformBlocks(ops, 0), "\n")))
    else Err(ValueError("Unsupported output format: " + format))
  }

  // ---- bash ----

  const BashHeader: seq<string> := [
    "#!/bin/bash",
    "# Auto-generated bulk tagging script for AWS TagSense",
    "# WARNING: Review carefully before executing",
    "",
    "set -e  # Exit on error",
    ""]

  const BashFooter: string := "echo 'Tagging complete!'"

  /** The `--tags` argument of `aws ec2 create-tags`: `Key=k,Value=v` items separated by spaces. */
  function Ec2TagArgs(items: seq<(string, string)>): string {
    Join(seq(|items|, i requires 0 <= i < |items| => "Key=" + items[i].0 + ",Value=" + items[i].1), " ")
  }

  /** The `TagSet` of `aws s3api put-bucket-tagging`: `{Key=k,Value=v}` items separated by commas. */
  function S3TagSet(items: seq<(string, string)>): string {
    Join(seq(|items|, i requires 0 <= i < |items| => "{Key=" + items[i].0 + ",Value=" + items[i].1 + "}"), ",")
  }

  /** The kinds the script has a command for. */
  predicate HasCommand(op: RenderOp) {
    op.kind == EC2 || op.kind == Lambda || op.kind == S3
  }

  /** The command for one operation; RDS and EBS have none. */
  function Command(op: RenderOp): Option<string> {
    match op.kind
    case EC2 => Some("aws ec2 create-tags --region " + op.region + " --resources " + op.resourceId + " --tags " + Ec2TagArgs(op.items))
    case Lambda => Some("aws lambda tag-resource --region " + op.region + " --resource $(aws lambda get-function --region "
        + op.region + " --function-name " + op.resourceId + " --query 'Configuration.FunctionArn' --output text) --tags "
        + JsonObject(op.items))
    case S3 => Some("aws s3api put-bucket-tagging --bucket " + op.resourceId + " --tagging 'TagSet=[" + S3TagSet(op.items) + "]'")
    case _ => None
  }

  /** The lines one operation contributes: its command, if any, then an empty line. */
  function OpLines(op: RenderOp): (lines: seq<string>)
    ensures |lines| == (if HasCommand(op) then 2 else 1)
    ensures |lines| == (if Command(op).Some? then 2 else 1)
    ensures Command(op).Some? ==> lines[0] == Command(op).value
    ensures lines[|lines| - 1] == ""
  {
    match Command(op)
    case Some(line) => [line, ""]
    case None => [""]
  }

  /** The lines of all operations in list order: one empty line each, after the command of each supported one. */
  function AllOpLines(ops: seq<RenderOp>): (lines: seq<string>)
    ensures |lines| == |ops| + CommandCount(ops)
  {
    if |ops| == 0 then [] else OpLines(ops[0]) + AllOpLines(ops[1..])
  }

  /** The lines of the bash script, which `_generate_bash_script` joins with newlines: the header, the operations' lines, the footer. */
  function BashLines(ops: seq<RenderOp>): (lines: seq<string>)
    ensures |lines| == |BashHeader| + |ops| + CommandCount(ops) + 1
    ensures lines[0] == "#!/bin/bash" && lines[|lines| - 1] == BashFooter
  {
    BashHeader + AllOpLines(ops) + [BashFooter]
  }

  /** Operations that get a command line. */
  function CommandCount(ops: seq<RenderOp>): nat {
    if |ops| == 0 then 0 else (if HasCommand(ops[0]) then 1 else 0) + CommandCount(ops[1..])
  }

  /** Where the lines of the operation at position `i` start among the operation lines. */
  function OpLineStart(ops: seq<RenderOp>, i: nat): nat
    requires i <= |ops|
  {
    i + CommandCount(ops[..i])
  }

  /** Line `j` of the operation at position `i` sits `j` lines after the lines of the operations before it. */
  lemma {:induction false} AllOpLineAt(ops: seq<RenderOp>, i: nat, j: nat)
    requires i < |ops| && j < |OpLines(ops[i])|
    ensures OpLineStart(ops, i) + j < |AllOpLines(ops)|
    ensures AllOpLines(ops)[OpLineStart(ops, i) + j] == OpLines(ops[i])[j]
    decreases i
  {
    var head := OpLines(ops[0]);
    var rest := AllOpLines(ops[1..]);
    assert AllOpLines(ops) == head + rest;
    if i == 0 {
      assert ops[..0] == [];
    } else {
      var tail := ops[1..];
      var c := OpLineStart(tail, i - 1);
      assert OpLineStart(ops, i) == |head| + c by {
        assert ops[..i] == [ops[0]] + tail[..i - 1];
        CommandCountCons(ops[0], tail[..i - 1]);
      }
      assert tail[i - 1] == ops[i];
      AllOpLineAt(tail, i - 1, j);
      assert AllOpLines(ops)[|head| + c + j] == rest[c + j];
    }
  }

  lemma CommandCountCons(op: RenderOp, ops: seq<RenderOp>)
    ensures CommandCount([op] + ops) == |OpLines(op)| - 1 + CommandCount(ops)
  {
    assert ([op] + ops)[1..] == ops;
  }

  /**
   * The same placement within the whole script, after the header: by `OpLines`,
   * the operation's command (when its type has one), then an empty line.
   */
  lemma BashOpLines(ops: seq<RenderOp>, i: nat)
    requires i < |ops|
    ensures |BashHeader| + OpLineStart(ops, i) + |OpLines(ops[i])| < |BashLines(ops)|
    ensures forall j :: 0 <= j < |OpLines(ops[i])| ==> BashLines(ops)[|BashHeader| + OpLineStart(ops, i) + j] == OpLines(ops[i])[j]
  {
    AllOpLineAt(ops, i, |OpLines(ops[i])| - 1);
    forall j | 0 <= j < |OpLines(ops[i])| ensures BashLines(ops)[|BashHeader| + OpLineStart(ops, i) + j] == OpLines(ops[i])[j] {
      AllOpLineAt(ops, i, j);
      BashLineOfOp(ops, OpLineStart(ops, i) + j);
    }
  }

  lemma BashLineOfOp(ops: seq<RenderOp>, k: nat)
    requires k < |AllOpLines(ops)|
    ensures |BashHeader| + k < |BashLines(ops)| && BashLines(ops)[|BashHeader| + k] == AllOpLines(ops)[k]
  {
  }

  // ---- json.dumps for the Lambda command ----

  function HexDigit(d: nat): char
    requires d < 16
  {
    if d < 10 then ('0' as int + d) as char else ('a' as int + d - 10) as char
  }

  /** `\uXXXX` with four lower-case hex digits. */
  function UnicodeEscape(n: nat): string
    requires n < 0x10000
  {
    "\\u" + [HexDigit(n / 4096), HexDigit(n / 256 % 16), HexDigit(n / 16 % 16), HexDigit(n % 16)]
  }

  /** How `json.dumps` (with its default `ensure_ascii`) writes one character inside a string. */
  function EscapeChar(c: char): string {
    if c == '"' then "\\\""
    else if c == '\\' then "\\\\"
    else if c == '\n' then "\\n"
    else if c == '\r' then "\\r"
    else if c == '\t' then "\\t"
    else if c as int == 8 then "\\b"
    else if c as int == 12 then "\\f"
    else if ' ' <= c <= '~' then [c]
    else if c as int < 0x10000 then UnicodeEscape(c as int)
    else
      var v := c as int - 0x10000;
      UnicodeEscape(0xD800 + v / 1024) + UnicodeEscape(0xDC00 + v % 1024)
  }

  /** Printable ASCII: what `ensure_ascii` output consists of. */
  predicate Printable(s: string) {
    forall i :: 0 <= i < |s| ==> ' ' <= s[i] <= '~'
  }

  lemma EscapeCharPrintable(c: char)
    ensures Printable(EscapeChar(c))
  {
  }

  function EscapeString(s: string): (r: string)
    ensures Printable(r)
  {
    if |s| == 0 then ""
    else
      EscapeCharPrintable(s[0]);
      EscapeChar(s[0]) + EscapeString(s[1..])
  }

  function JsonString(s: string): string {
    "\"" + EscapeString(s) + "\""
  }

  /** `json.dumps` of a dict of strings: `{"k": "v", ...}` in item order. */
  function JsonObject(items: seq<(string, string)>): string {
    "{" + Join(seq(|items|, i requires 0 <= i < |items| => JsonString(items[i].0) + ": " + JsonString(items[i].1)), ", ") + "}"
  }

  lemma PrintableJoin(parts: seq<string>, sep: string)
    requires Printable(sep)
    requires forall i :: 0 <= i < |parts| ==> Printable(parts[i])
    ensures Printable(Join(parts, sep))
    decreases |parts|
  {
    if |parts| > 1 {
      PrintableJoin(parts[1..], sep);
    }
  }

  /** The JSON text is printable ASCII whatever the keys and values hold; in particular it holds no line break or other control character. */
  lemma JsonObjectPrintable(items: seq<(string, string)>)
    ensures Printable(JsonObject(items))
  {
    var parts := seq(|items|, i requires 0 <= i < |items| => JsonString(items[i].0) + ": " + JsonString(items[i].1));
    PrintableJoin(parts, ", ");
  }

  // ---- terraform ----

  /** The `key`/`value` lines of one tag. */
  function TerraformTagLines(items: seq<(string, string)>): string {
    Join(seq(|items|, i requires 0 <= i < |items| =>
      "  key   = \"" + items[i].0 + "\"" + "\n" + "  value = \"" + items[i].1 + "\""), "\n")
  }

  /** The resource name of the block for the operation at position `i`. */
  function BlockName(i: nat): string {
    "tag_" + NatToString(i)
  }

  /** The `aws_ec2_tag` block for the operation at position `i`. */
  function TerraformBlock(i: nat, op: RenderOp): string {
    "\nresource \"aws_ec2_tag\" \"" + BlockName(i) + "\" {\n  resource_id = \"" + op.resourceId + "\"\n\n  "
      + TerraformTagLines(op.items) + "\n}\n"
  }

  /** The positions, from `k` on, of the EC2 operations: only those get a block. */
  function Ec2Positions(ops: seq<RenderOp>, k: nat): (ps: seq<nat>)
    requires k <= |ops|
    ensures forall j :: 0 <= j < |ps| ==> k <= ps[j] < |ops| && ops[ps[j]].kind == EC2
    ensures forall j :: k <= j < |ops| && ops[j].kind == EC2 ==> j in ps
    ensures forall a, b :: 0 <= a < b < |ps| ==> ps[a] < ps[b]
    decreases |ops| - k
  {
    if k == |ops| then []
    else if ops[k].kind == EC2 then [k] + Ec2Positions(ops, k + 1)
    else Ec2Positions(ops, k + 1)
  }

  /** `_generate_terraform_script`'s blocks, one per EC2 operation, named by the operation's position in the whole list. */
  function TerraformBlocks(ops: seq<RenderOp>, k: nat): (blocks: seq<string>)
    requires k <= |ops|
    ensures var ps := Ec2Positions(ops, k);
      |blocks| == |ps| && forall j :: 0 <= j < |ps| ==> blocks[j] == TerraformBlock(ps[j], ops[ps[j]])
    decreases |ops| - k
  {
    if k == |ops| then []
    else if ops[k].kind == EC2 then [TerraformBlock(k, ops[k])] + TerraformBlocks(ops, k + 1)
    else TerraformBlocks(ops, k + 1)
  }

  lemma NatToStringInjective(a: nat, b: nat)
    requires NatToString(a) == NatToString(b)
    ensures a == b
  {
    DigitsOfNat(a);
    DigitsOfNat(b);
  }

  /** Distinct blocks get distinct resource names, as Terraform requires. */
  lemma TerraformNamesDistinct(ops: seq<RenderOp>, a: nat, b: nat)
    requires a < b < |Ec2Positions(ops, 0)|
    ensures BlockName(Ec2Positions(ops, 0)[a]) != BlockName(Ec2Positions(ops, 0)[b])
  {
    var ps := Ec2Positions(ops, 0);
    if BlockName(ps[a]) == BlockName(ps[b]) {
      assert NatToString(ps[a]) == BlockName(ps[a])[4..];
      assert NatToString(ps[b]) == BlockName(ps[b])[4..];
      NatToStringInjective(ps[a], ps[b]);
    }
  }
}
