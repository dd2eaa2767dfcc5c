/** The shader program of `shaders/shader_program.rs`: two stored sources, a
    compiled flag, and the early-return structure of `compile` and
    `set_uniform4f_variable`. What the GL driver answers (shader names, link
    status, uniform location) is an input of the model; the calls the
    program issues are returned as a trace. */
module Shaders {
  import opened Numeric

  datatype ShaderType = Vertex | Fragment

  /** The uniform value `set_uniform4f_variable` uploads. */
  datatype Color = Color(r: real, g: real, b: real, a: real)

  /** The GL calls the program issues. `CompileShader` stands for creating a
      shader object, giving it the source, compiling it and reading back the
      compile status. */
  datatype GlCall =
    | CompileShader(kind: ShaderType, source: string)
    | AttachShader(program: u32, shader: u32)
    | LinkProgram(program: u32)
    | DeleteShader(shader: u32)
    | UseProgram(program: u32)
    | GetUniformLocation(program: u32, name: string)
    | Uniform4f(location: i32, value: Color)

  /** The driver's answers to one `compile`: the name `compile_shader`
      returns for each stage (0 when compiling failed) and the link status. */
  datatype CompileAnswers = CompileAnswers(vertexShader: u32, fragmentShader: u32, linked: bool)

  /** Rust's `CString::new(..).unwrap()` panics on an interior NUL. */
  predicate NulFree(s: string) {
    forall i :: 0 <= i < |s| ==> s[i] != '\0'
  }

  /** The calls `compile` issues on a program that is not yet compiled:
      the vertex stage; the fragment stage only if the vertex stage gave a
      name; attach and link only if both did; the shaders are deleted only
      after a successful link. */
  function CompileTrace(program: u32, vertSrc: string, fragSrc: string, gl: CompileAnswers): seq<GlCall> {
    [CompileShader(Vertex, vertSrc)]
    + if gl.vertexShader == 0 then [] else
      [CompileShader(Fragment, fragSrc)]
      + if gl.fragmentShader == 0 then [] else
        [AttachShader(program, gl.vertexShader), AttachShader(program, gl.fragmentShader), LinkProgram(program)]
        + if !gl.linked then [] else [DeleteShader(gl.vertexShader), DeleteShader(gl.fragmentShader)]
  }

  /** The fragment stage is compiled only after the vertex stage succeeded,
      and the program is linked only when both stages compiled. */
  lemma {:induction false} CompileOrder(program: u32, vertSrc: string, fragSrc: string, gl: CompileAnswers)
    ensures var t := CompileTrace(program, vertSrc, fragSrc, gl);
      && t[0] == CompileShader(Vertex, vertSrc)
      && (CompileShader(Fragment, fragSrc) in t <==> gl.vertexShader != 0)
      && (gl.vertexShader != 0 ==> t[1] == CompileShader(Fragment, fragSrc))
      && (LinkProgram(program) in t <==> gl.vertexShader != 0 && gl.fragmentShader != 0)
      && (DeleteShader(gl.vertexShader) in t <==> gl.vertexShader != 0 && gl.fragmentShader != 0 && gl.linked)
  {
    var t := CompileTrace(program, vertSrc, fragSrc, gl);
    if gl.vertexShader == 0 {
      assert t == [CompileShader(Vertex, vertSrc)];
    } else if gl.fragmentShader == 0 {
      assert t == [CompileShader(Vertex, vertSrc), CompileShader(Fragment, fragSrc)];
    } else if !gl.linked {
      assert t == [CompileShader(Vertex, vertSrc), CompileShader(Fragment, fragSrc),
                   AttachShader(program, gl.vertexShader), AttachShader(program, gl.fragmentShader),
                   LinkProgram(program)];
    } else {
      assert t[5] == DeleteShader(gl.vertexShader);
    }
  }

  class ShaderProgram {
    var shaderProgramId: u32
    var vertSrc: string
    var fragSrc: string
    var isCompiled: bool

    /** `ShaderProgram::new`: both sources stored, not compiled; `programId`
        is what `gl::CreateProgram` returned. */
    constructor (vertSrc: string, fragSrc: string, programId: u32)
      ensures this.vertSrc == vertSrc && this.fragSrc == fragSrc
      ensures shaderProgramId == programId
      ensures !isCompiled
    {
      shaderProgramId := programId;
      this.vertSrc, this.fragSrc := vertSrc, fragSrc;
      isCompiled := false;
    }

    method SetFragmentShader(src: string)
      modifies this
      ensures fragSrc == src && !IsCompiled()
      ensures vertSrc == old(vertSrc) && shaderProgramId == old(shaderProgramId)
    {
      fragSrc := src;
      isCompiled := false;
    }

    method SetVertexShader(src: string)
      modifies this
      ensures vertSrc == src && !IsCompiled()
      ensures fragSrc == old(fragSrc) && shaderProgramId == old(shaderProgramId)
    {
      vertSrc := src;
      isCompiled := false;
    }

    /** `compile`: true at once on a compiled program; otherwise true, and
        compiled, exactly when both stages compiled and the link succeeded. */
    method Compile(gl: CompileAnswers) returns (ok: bool, calls: seq<GlCall>)
      requires !isCompiled ==> NulFree(vertSrc) && (gl.vertexShader != 0 ==> NulFree(fragSrc))
      modifies this
      ensures ok == IsCompiled()
      ensures vertSrc == old(vertSrc) && fragSrc == old(fragSrc) && shaderProgramId == old(shaderProgramId)
      ensures old(isCompiled) ==> ok && calls == []
      ensures !old(isCompiled) ==> (ok <==> gl.vertexShader != 0 && gl.fragmentShader != 0 && gl.linked)
      ensures !old(isCompiled) ==> calls == CompileTrace(shaderProgramId, vertSrc, fragSrc, gl)
    {
      if isCompiled {
        return true, [];
      }

      var vertexShaderId, call := CompileStage(Vertex, gl);
      calls := [call];
      if vertexShaderId == 0 {
        return false, calls;
      }

      var fragmentShaderId, call' := CompileStage(Fragment, gl);
      calls := calls + [call'];
      if fragmentShaderId == 0 {
        return false, calls;
      }

      calls := calls + [AttachShader(shaderProgramId, vertexShaderId), AttachShader(shaderProgramId, fragmentShaderId),
                        LinkProgram(shaderProgramId)];
      if !gl.linked {
        return false, calls;
      }
      calls := calls + [DeleteShader(vertexShaderId), DeleteShader(fragmentShaderId)];

      isCompiled := true;
      ok := true;
    }

    /** `compile_shader`: compiles the stage's own source; the name is the
        driver's answer for that stage. */
    method CompileStage(kind: ShaderType, gl: CompileAnswers) returns (shader: u32, call: GlCall)
      requires NulFree(MatchShaderSrc(kind))
      ensures shader == if kind == Vertex then gl.vertexShader else gl.fragmentShader
      ensures call == CompileShader(kind, if kind == Vertex then vertSrc else fragSrc)
    {
      call := CompileShader(kind, MatchShaderSrc(kind));
      shader := if kind == Vertex then gl.vertexShader else gl.fragmentShader;
    }

    /** `is_compiled`: the flag `Compile` sets to its result and the source
        setters clear. */
    predicate IsCompiled()
      reads this
      ensures IsCompiled() <==> isCompiled
    {
      isCompiled
    }

    function Activate(): GlCall
      reads this
    {
      UseProgram(shaderProgramId)
    }

    function Deactivate(): GlCall {
      UseProgram(0)
    }

    /** `set_uniform4f_variable`: false exactly when the driver reports no
        such uniform (location -1); on both paths the program is made
        current first and released last. */
    method SetUniform4fVariable(variable: string, value: Color, location: i32) returns (ok: bool, calls: seq<GlCall>)
      requires NulFree(variable)
      ensures ok <==> location != -1
      ensures |calls| == if ok then 4 else 3
      ensures calls[0] == UseProgram(shaderProgramId) && calls[|calls| - 1] == UseProgram(0)
      ensures calls[1] == GetUniformLocation(shaderProgramId, variable)
      ensures ok <==> Uniform4f(location, value) in calls
    {
      calls := [Activate(), GetUniformLocation(shaderProgramId, variable)];
      if location == -1 {
        calls := calls + [Deactivate()];
        return false, calls;
      }
      calls := calls + [Uniform4f(location, value)];
      calls := calls + [Deactivate()];
      ok := true;
    }

    /** `match_shader_src`: the vertex source for the vertex stage, the
        fragment source for the fragment stage. */
    function MatchShaderSrc(kind: ShaderType): (src: string)
      reads this
      ensures kind == Vertex ==> src == vertSrc
      ensures kind == Fragment ==> src == fragSrc
    {
      match kind
      case Vertex => vertSrc
      case Fragment => fragSrc
    }
  }
}
