/**
 * The encoder command builder of command.go: a command name and a bag of
 * options keyed by name, where every builder method stores one flag group
 * under its own key, overwriting what was there, and returns the receiver so
 * that calls can be chained.
 */
module CommandBuilder {

  /** Go's `type String func(out *string)`: an update of a string option, as old value to new. */
  type StringOption = string -> string

  /** `Strings(in)`: the update that makes the option `in`, whatever it was. */
  function Strings(value: string): (o: StringOption)
    ensures forall out :: o(out) == value
  {
    (out: string) => value
  }

  /** The value of an option that starts as `init` and goes through `options` in order. */
  function ApplyStrings(init: string, options: seq<StringOption>): (r: string)
    ensures |options| == 0 ==> r == init
  {
    if |options| == 0 then init
    else options[|options| - 1](ApplyStrings(init, options[..|options| - 1]))
  }

  /** Going through `xs + ys` is going through `xs`, then through `ys`. */
  lemma {:induction false} ApplyStringsAppend(init: string, xs: seq<StringOption>, ys: seq<StringOption>)
    ensures ApplyStrings(init, xs + ys) == ApplyStrings(ApplyStrings(init, xs), ys)
  {
    if |ys| > 0 {
      var ys' := ys[..|ys| - 1];
      assert (xs + ys)[..|xs + ys| - 1] == xs + ys';
      ApplyStringsAppend(init, xs, ys');
    } else {
      assert xs + ys == xs;
    }
  }

  /** The updates `Strings(xs[0]), Strings(xs[1]), ...`. */
  function StringsOf(xs: seq<string>): (os: seq<StringOption>)
    ensures |os| == |xs|
    ensures forall i :: 0 <= i < |xs| ==> os[i] == Strings(xs[i])
  {
    seq(|xs|, i requires 0 <= i < |xs| => Strings(xs[i]))
  }

  /**
   * With options built by `Strings`, the last one decides the codec; with
   * none, the codec stays `copy`.
   */
  lemma LastStringsWins(xs: seq<string>)
    ensures ApplyStrings("copy", StringsOf(xs)) == if |xs| == 0 then "copy" else xs[|xs| - 1]
  {
    if |xs| > 0 {
      var os := StringsOf(xs);
      assert os[|os| - 1] == Strings(xs[|xs| - 1]);
    }
  }

  class Command {
    var name: string
    var opts: map<string, seq<string>>

    /** `New(name)`: the named command with no options. */
    constructor New(name: string)
      ensures this.name == name && opts == map[]
    {
      this.name := name;
      opts := map[];
    }

    /** `-y`: overwrite outputs without asking. */
    method Ignore() returns (c: Command)
      modifies this`opts
      ensures c == this && opts == old(opts)["ignore" := ["-y"]]
    {
      opts := opts["ignore" := ["-y"]];
      c := this;
    }

    method Input(path: string) returns (c: Command)
      modifies this`opts
      ensures c == this && opts == old(opts)["input" := ["-i", path]]
    {
      opts := opts["input" := ["-i", path]];
      c := this;
    }

    /** Copy every stream without re-encoding. */
    method Codec() returns (c: Command)
      modifies this`opts
      ensures c == this && opts == old(opts)["c" := ["-c", "copy"]]
    {
      opts := opts["c" := ["-c", "copy"]];
      c := this;
    }

    /** The video codec: `copy` unless the options say otherwise; the last one wins. */
    method CodecVideo(options: seq<StringOption>) returns (c: Command)
      modifies this`opts
      ensures c == this && opts == old(opts)["cv" := ["-c:v", ApplyStrings("copy", options)]]
    {
      var option := "copy";
      for i := 0 to |options|
        invariant option == ApplyStrings("copy", options[..i])
      {
        assert options[..i + 1][..i] == options[..i];
        option := options[i](option);
      }
      assert options[..|options|] == options;
      opts := opts["cv" := ["-c:v", option]];
      c := this;
    }

    /** The audio codec, chosen as `CodecVideo` chooses the video codec. */
    method CodecAudio(options: seq<StringOption>) returns (c: Command)
      modifies this`opts
      ensures c == this && opts == old(opts)["ca" := ["-c:a", ApplyStrings("copy", options)]]
    {
      var option := "copy";
      for i := 0 to |options|
        invariant option == ApplyStrings("copy", options[..i])
      {
        assert options[..i + 1][..i] == options[..i];
        option := options[i](option);
      }
      assert options[..|options|] == options;
      opts := opts["ca" := ["-c:a", option]];
      c := this;
    }

    /** The output container format. */
    method Format(f: string) returns (c: Command)
      modifies this`opts
      ensures c == this && opts == old(opts)["format" := ["-f", f]]
    {
      opts := opts["format" := ["-f", f]];
      c := this;
    }

    /** The HLS segment duration. */
    method HlsTime(t: string) returns (c: Command)
      modifies this`opts
      ensures c == this && opts == old(opts)["hls_time" := ["-hls_time", t]]
    {
      opts := opts["hls_time" := ["-hls_time", t]];
      c := this;
    }

    /** The number of playlist entries kept. */
    method HlsListSize(s: string) returns (c: Command)
      modifies this`opts
      ensures c == this && opts == old(opts)["hls_list_size" := ["-hls_list_size", s]]
    {
      opts := opts["hls_list_size" := ["-hls_list_size", s]];
      c := this;
    }

    /** The segment file name pattern; the value stored is the `name` argument. */
    method HlsSegmentFilename(name: string) returns (c: Command)
      modifies this`opts
      ensures c == this && opts == old(opts)["hls_segment_filename" := ["-hls_segment_filename", name]]
    {
      opts := opts["hls_segment_filename" := ["-hls_segment_filename", name]];
      c := this;
    }
  }

  /**
   * Builder calls are idempotent: giving the same input twice leaves the
   * command as giving it once, and a later input replaces an earlier one.
   */
  method InputTwice(c: Command, first: string, second: string)
    modifies c
    ensures c.name == old(c.name)
    ensures c.opts == old(c.opts)["input" := ["-i", second]]
  {
    var r := c.Input(first);
    r := r.Input(second);
  }

  /** A chain of builder calls touches only the keys of the calls in the chain. */
  method HlsChain(c: Command, path: string, seconds: string)
    modifies c
    ensures c.name == old(c.name)
    ensures c.opts == old(c.opts)["ignore" := ["-y"]]["input" := ["-i", path]]
      ["format" := ["-f", "hls"]]["hls_time" := ["-hls_time", seconds]]
    ensures forall k :: k in old(c.opts) && k !in {"ignore", "input", "format", "hls_time"} ==>
      k in c.opts && c.opts[k] == old(c.opts)[k]
    ensures forall k :: k !in old(c.opts) && k !in {"ignore", "input", "format", "hls_time"} ==> k !in c.opts
    ensures "ignore" in c.opts && c.opts["ignore"] == ["-y"]
    ensures "input" in c.opts && c.opts["input"] == ["-i", path]
    ensures "format" in c.opts && c.opts["format"] == ["-f", "hls"]
    ensures "hls_time" in c.opts && c.opts["hls_time"] == ["-hls_time", seconds]
  {
    var r := c.Ignore();
    r := r.Input(path);
    r := r.Format("hls");
    r := r.HlsTime(seconds);
  }
}
