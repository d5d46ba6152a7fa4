/**
 * Where the activity's tools put, and where it then looks for, the artifacts
 * of one class. A class picked from the list by its dotted name is turned back
 * into an internal name (every `.` becomes `/`), which names its file under
 * the build directory: `smali/` for baksmali's output, `classes/` for the
 * compiled class file that the decompiler and the disassembler read, `cfr/`
 * for the decompiler's output.
 */
module Artifacts {
  import opened Options
  import opened JavaStrings
  import DexClasses
  import Provisioning

  /** `className.replace(".", "/")`. */
  function InternalName(className: string): (r: string)
    ensures |r| == |className| && '.' !in r
  {
    ReplaceChar(className, '.', '/')
  }

  /** The file baksmali writes for the class and the smali viewer reads. */
  function SmaliPath(binDir: string, className: string): string
  {
    binDir + "smali/" + InternalName(className) + ".smali"
  }

  /** The compiled class file the decompiler and the disassembler read. */
  function ClassFilePath(binDir: string, className: string): string
  {
    binDir + "classes/" + InternalName(className) + ".class"
  }

  /** The file the decompiler writes for the class and the source viewer reads. */
  function DecompiledPath(binDir: string, className: string): string
  {
    binDir + "cfr/" + InternalName(className) + ".java"
  }

  /** baksmali's command line: force, output directory, input dex file. */
  function BaksmaliArgs(binDir: string): seq<string>
  {
    ["-f", "-o", binDir + "smali/", binDir + "classes.dex"]
  }

  /** The decompiler's command line for one class. */
  function CfrArgs(binDir: string, classpathDir: string, className: string): seq<string>
  {
    [ClassFilePath(binDir, className), "--extraclasspath", classpathDir + "android.jar",
     "--outputdir", binDir + "cfr/"]
  }

  /** `prefix + mid + suffix` determines `mid` once `prefix` and `suffix` are fixed. */
  lemma InfixDetermined(prefix: string, x: string, y: string, suffix: string)
    requires prefix + x + suffix == prefix + y + suffix
    ensures x == y
  {
    var s, t := prefix + x + suffix, prefix + y + suffix;
    assert |x| == |y|;
    assert forall i :: 0 <= i < |x| ==> x[i] == y[i] by {
      forall i | 0 <= i < |x| ensures x[i] == y[i] {
        assert s[|prefix| + i] == x[i];
        assert t[|prefix| + i] == y[i];
      }
    }
  }

  /**
   * A class listed from the descriptor `Ls;`, whose internal name `s` holds no
   * `.`, is looked for at the files named by `s` itself.
   */
  lemma ArtifactsOfDescriptor(binDir: string, s: string)
    requires '.' !in s
    ensures DexClasses.DottedName("L" + s + ";").Some?
    ensures var name := DexClasses.DottedName("L" + s + ";").value;
      && SmaliPath(binDir, name) == binDir + "smali/" + s + ".smali"
      && ClassFilePath(binDir, name) == binDir + "classes/" + s + ".class"
      && DecompiledPath(binDir, name) == binDir + "cfr/" + s + ".java"
  {
    DexClasses.DescriptorInterior(s);
    ReplaceCharRoundTrip(s, '/', '.');
  }

  /**
   * Distinct classes whose names hold no `/` have distinct smali files,
   * distinct class files and distinct decompiled files.
   */
  lemma ArtifactsDistinct(binDir: string, a: string, b: string)
    requires '/' !in a && '/' !in b && a != b
    ensures SmaliPath(binDir, a) != SmaliPath(binDir, b)
    ensures ClassFilePath(binDir, a) != ClassFilePath(binDir, b)
    ensures DecompiledPath(binDir, a) != DecompiledPath(binDir, b)
  {
    ReplaceCharRoundTrip(a, '.', '/');
    ReplaceCharRoundTrip(b, '.', '/');
    if SmaliPath(binDir, a) == SmaliPath(binDir, b) {
      InfixDetermined(binDir + "smali/", InternalName(a), InternalName(b), ".smali");
    }
    if ClassFilePath(binDir, a) == ClassFilePath(binDir, b) {
      InfixDetermined(binDir + "classes/", InternalName(a), InternalName(b), ".class");
    }
    if DecompiledPath(binDir, a) == DecompiledPath(binDir, b) {
      InfixDetermined(binDir + "cfr/", InternalName(a), InternalName(b), ".java");
    }
  }

  /**
   * The smali viewer reads a file inside baksmali's output directory, and
   * baksmali reads the dex file beside it in the build directory.
   */
  lemma SmaliViewerReadsBaksmaliOutput(binDir: string, className: string)
    ensures StartsWith(SmaliPath(binDir, className), BaksmaliArgs(binDir)[2])
    ensures EndsWith(SmaliPath(binDir, className), ".smali")
    ensures StartsWith(BaksmaliArgs(binDir)[3], binDir)
  {
    var p := SmaliPath(binDir, className);
    assert p[..|binDir + "smali/"|] == binDir + "smali/";
    assert p[|p| - 6..] == ".smali";
    assert (binDir + "classes.dex")[..|binDir|] == binDir;
  }

  /**
   * The decompiler reads the class file the disassembler reads, and the
   * source viewer reads a `.java` file inside the decompiler's output directory.
   */
  lemma SourceViewerReadsCfrOutput(binDir: string, classpathDir: string, className: string)
    ensures CfrArgs(binDir, classpathDir, className)[0] == ClassFilePath(binDir, className)
    ensures StartsWith(DecompiledPath(binDir, className), CfrArgs(binDir, classpathDir, className)[4])
    ensures EndsWith(DecompiledPath(binDir, className), ".java")
  {
    var p := DecompiledPath(binDir, className);
    assert p[..|binDir + "cfr/"|] == binDir + "cfr/";
    assert p[|p| - 5..] == ".java";
  }

  /** The decompiler's extra class path is the `android.jar` that start-up provisioning unpacks. */
  lemma CfrUsesProvisionedJar(binDir: string, classpathDir: string, className: string)
    ensures CfrArgs(binDir, classpathDir, className)[2] == Provisioning.AndroidJar(classpathDir)
  {
  }
}
