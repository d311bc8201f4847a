/**
 * The job record of the pattern matcher's processor (processor/job.py):
 * a name, the function to execute and the tuple of its remaining
 * positional arguments, fixed once at construction; `get_job_info`
 * renders the three in a fixed order.
 */
module Job {
  import opened Py

  /** `Job(name, exec, *args)`: `args` holds the extra positional arguments
      in call order, and is empty when none are given. */
  datatype Job<E, A> = Job(name: string, exec: E, args: seq<A>)

  /** How Python prints a tuple whose items print as `items`:
      `()`, `(a,)`, `(a, b)`, ... */
  function TupleRepr(items: seq<string>): (r: string)
    ensures |r| >= 2 && r[0] == '(' && r[|r| - 1] == ')'
    ensures |items| == 1 ==> r[|r| - 2] == ','
  {
    "(" + Join(items, ", ") + (if |items| == 1 then "," else "") + ")"
  }

  const InfoHead: string := "Job info: [name: "

  /** `get_job_info`: name, exec and args, in that order.  `showExec` and
      `showArg` are how Python prints the function and each argument. */
  function JobInfo<E, A>(job: Job<E, A>, showExec: E -> string, showArg: A -> string): (s: string)
    ensures |s| > |InfoHead| + |job.name| && s[..|InfoHead|] == InfoHead
    ensures s[|InfoHead|..|InfoHead| + |job.name|] == job.name
    ensures s[|s| - 1] == ']'
  {
    var argItems := seq(|job.args|, k requires 0 <= k < |job.args| => showArg(job.args[k]));
    InfoHead + job.name + ExecLabel + showExec(job.exec) + ArgsLabel + TupleRepr(argItems) + "]"
  }

  const ExecLabel: string := ", exec: "
  const ArgsLabel: string := ", args: "

  /** The text of s before its first comma. */
  function BeforeComma(s: string): (r: string)
    ensures |r| <= |s| && r == s[..|r|]
  {
    SplitFirstPiece(s, ',');
    Split(s, ",")[0]
  }

  /** The printed tuple read back from the end of a job-info line: the
      text between ", args: " and the closing ']'. */
  function ArgsPart(t: string): Option<string> {
    if |t| < |ArgsLabel| + 1 || t[..|ArgsLabel|] != ArgsLabel || t[|t| - 1] != ']' then None
    else Some(t[|ArgsLabel|..|t| - 1])
  }

  /** The printed function and tuple read back from the part of a job-info
      line after the name: after ", exec: ", the text up to the next comma,
      then the tuple. */
  function ExecPart(t: string): Option<(string, string)> {
    if |t| < |ExecLabel| || t[..|ExecLabel|] != ExecLabel then None
    else
      var rest := t[|ExecLabel|..];
      var exec := BeforeComma(rest);
      match ArgsPart(rest[|exec|..])
      case None => None
      case Some(args) => Some((exec, args))
  }

  /** The three fields read back from a job-info line: the name up to the
      first comma, then the printed function and the printed tuple; None
      when the line does not have that shape. */
  function FieldsOfInfo(s: string): Option<(string, string, string)> {
    if |s| < |InfoHead| || s[..|InfoHead|] != InfoHead then None
    else
      var rest := s[|InfoHead|..];
      var name := BeforeComma(rest);
      match ExecPart(rest[|name|..])
      case None => None
      case Some(fields) => Some((name, fields.0, fields.1))
  }

  /** The first comma of `a + [','] + b` is the one after a, when a has none. */
  lemma BeforeFirstComma(a: string, b: string)
    requires ',' !in a
    ensures BeforeComma(a + [','] + b) == a
  {
    SplitAtFirst(a, ',', b);
  }

  /** A comma-free text followed by a label that starts with a comma: the
      text is what comes before the first comma, and the label follows it. */
  lemma BeforeLabel(a: string, sep: string, b: string)
    requires ',' !in a && |sep| >= 1 && sep[0] == ','
    ensures BeforeComma(a + sep + b) == a && (a + sep + b)[|a|..] == sep + b
  {
    assert a + sep + b == a + [','] + (sep[1..] + b);
    BeforeFirstComma(a, sep[1..] + b);
  }

  lemma ArgsPartOf(args: string)
    ensures ArgsPart(ArgsLabel + args + "]") == Some(args)
  {
    var t := ArgsLabel + args + "]";
    assert t[..|ArgsLabel|] == ArgsLabel;
    assert t[|ArgsLabel|..|t| - 1] == args;
  }

  lemma ExecPartOf(exec: string, args: string)
    requires ',' !in exec
    ensures ExecPart(ExecLabel + exec + ArgsLabel + args + "]") == Some((exec, args))
  {
    var t := ExecLabel + exec + ArgsLabel + args + "]";
    var rest := exec + ArgsLabel + (args + "]");
    assert t[..|ExecLabel|] == ExecLabel && t[|ExecLabel|..] == rest;
    BeforeLabel(exec, ArgsLabel, args + "]");
    assert rest[|exec|..] == ArgsLabel + args + "]";
    ArgsPartOf(args);
  }

  /** A line of the job-info shape gives back its three fields when the
      first two hold no comma. */
  lemma FieldsRoundTrip(name: string, exec: string, args: string)
    requires ',' !in name && ',' !in exec
    ensures FieldsOfInfo(InfoHead + name + ExecLabel + exec + ArgsLabel + args + "]") == Some((name, exec, args))
  {
    var tail := exec + ArgsLabel + args + "]";
    var s := InfoHead + name + ExecLabel + exec + ArgsLabel + args + "]";
    var rest := name + ExecLabel + tail;
    assert s == InfoHead + rest;
    assert s[..|InfoHead|] == InfoHead && s[|InfoHead|..] == rest;
    BeforeLabel(name, ExecLabel, tail);
    assert ExecLabel + tail == ExecLabel + exec + ArgsLabel + args + "]";
    ExecPartOf(exec, args);
  }

  /** A job-info line gives back the name, the printed function and the
      printed argument tuple, in that order, when the name and the printed
      function hold no comma. */
  lemma InfoRoundTrip<E, A>(job: Job<E, A>, showExec: E -> string, showArg: A -> string)
    requires ',' !in job.name && ',' !in showExec(job.exec)
    ensures FieldsOfInfo(JobInfo(job, showExec, showArg)) ==
      Some((job.name, showExec(job.exec),
            TupleRepr(seq(|job.args|, k requires 0 <= k < |job.args| => showArg(job.args[k])))))
  {
    var argItems := seq(|job.args|, k requires 0 <= k < |job.args| => showArg(job.args[k]));
    FieldsRoundTrip(job.name, showExec(job.exec), TupleRepr(argItems));
  }
}
