/**
 * The start-up provisioning of the compiler's class path. When the activity
 * is created it unpacks `android.jar` from the bundled zip unless that file is
 * already in the class-path directory, and, when the compiler setting
 * `javaVersion` (default "7.0") is "8.0", copies the bundled
 * `core-lambda-stubs.jar` there unless it is already present. A failed copy is
 * reported; it leaves the file absent when it fails before the output file
 * exists (reading the bundled jar, or creating the output), and leaves a
 * truncated file behind when writing fails after the file was created.
 */
module Provisioning {
  import opened Options

  /** The compiler's boot class path jar. */
  function AndroidJar(classpathDir: string): string
  {
    classpathDir + "android.jar"
  }

  /** The lambda stubs jar; its name carries its own `/`, unlike `android.jar`'s. */
  function LambdaStubsJar(classpathDir: string): string
  {
    classpathDir + "/core-lambda-stubs.jar"
  }

  /** The stored `javaVersion` setting, "7.0" when none is stored. */
  function JavaVersion(setting: Option<string>): string
  {
    setting.GetOr("7.0")
  }

  datatype Action = UnpackAndroidJar | CopyLambdaStubs

  /**
   * How a copy of the stubs ends: written; failed before the output file
   * exists (reading the bundled jar, or creating the output); or failed while
   * writing, after the output file was created.
   */
  datatype CopyOutcome = Copied | FailedBeforeOpen | FailedAfterOpen

  /** The two jars are different files. */
  lemma JarsDiffer(classpathDir: string)
    ensures AndroidJar(classpathDir) != LambdaStubsJar(classpathDir)
  {
    assert |AndroidJar(classpathDir)| != |LambdaStubsJar(classpathDir)|;
  }

  /** What one start-up does, in order, given the files already present. */
  function Plan(present: set<string>, classpathDir: string, setting: Option<string>): (r: seq<Action>)
    ensures UnpackAndroidJar in r <==> AndroidJar(classpathDir) !in present
    ensures CopyLambdaStubs in r <==>
      LambdaStubsJar(classpathDir) !in present && JavaVersion(setting) == "8.0"
    ensures |r| <= 2 && (|r| == 2 ==> r == [UnpackAndroidJar, CopyLambdaStubs])
  {
    (if AndroidJar(classpathDir) !in present then [UnpackAndroidJar] else [])
    + (if LambdaStubsJar(classpathDir) !in present && JavaVersion(setting) == "8.0"
       then [CopyLambdaStubs] else [])
  }

  /** The files present after one start-up; `copy` says how the copy ends, if one is made. */
  function AfterRun(present: set<string>, classpathDir: string, setting: Option<string>, copy: CopyOutcome): set<string>
  {
    var plan := Plan(present, classpathDir, setting);
    present
    + (if UnpackAndroidJar in plan then {AndroidJar(classpathDir)} else {})
    + (if CopyLambdaStubs in plan && copy != FailedBeforeOpen then {LambdaStubsJar(classpathDir)} else {})
  }

  /** The class-path directory's files, as far as provisioning sees them. */
  class Disk {
    var present: set<string>

    constructor(files: set<string>)
      ensures present == files
    {
      present := files;
    }

    /** Runs the provisioning of one start-up; `failed` says whether an error was shown. */
    method Provision(classpathDir: string, setting: Option<string>, copy: CopyOutcome)
      returns (performed: seq<Action>, failed: bool)
      modifies this
      ensures performed == Plan(old(present), classpathDir, setting)
      ensures present == AfterRun(old(present), classpathDir, setting, copy)
      ensures failed <==> CopyLambdaStubs in performed && copy != Copied
    {
      performed := [];
      failed := false;
      ghost var before := present;
      if AndroidJar(classpathDir) !in present {
        present := present + {AndroidJar(classpathDir)};
        performed := performed + [UnpackAndroidJar];
      }
      var output := LambdaStubsJar(classpathDir);
      JarsDiffer(classpathDir);
      if output !in present && JavaVersion(setting) == "8.0" {
        performed := performed + [CopyLambdaStubs];
        if copy != FailedBeforeOpen {
          present := present + {output};
        }
        failed := copy != Copied;
      }
      assert performed == Plan(before, classpathDir, setting);
    }
  }

  /** Provisioning only adds files, and `android.jar` is always there afterwards. */
  lemma RunOnlyAdds(present: set<string>, classpathDir: string, setting: Option<string>, copy: CopyOutcome)
    ensures present <= AfterRun(present, classpathDir, setting, copy)
    ensures AndroidJar(classpathDir) in AfterRun(present, classpathDir, setting, copy)
  {
  }

  /**
   * After a start-up whose copy (if any) created the output file, the next
   * start-up does nothing: a copy that failed while writing leaves a truncated
   * file that is never replaced.
   */
  lemma SecondRunIdle(present: set<string>, classpathDir: string, setting: Option<string>, copy: CopyOutcome)
    requires copy != FailedBeforeOpen
    ensures Plan(AfterRun(present, classpathDir, setting, copy), classpathDir, setting) == []
  {
    var after := AfterRun(present, classpathDir, setting, copy);
    var next := Plan(after, classpathDir, setting);
    assert UnpackAndroidJar !in next;
    assert CopyLambdaStubs !in next;
  }

  /** After a copy that failed before creating the file, the next start-up retries the copy and nothing else. */
  lemma SecondRunRetriesCopy(present: set<string>, classpathDir: string, setting: Option<string>)
    requires CopyLambdaStubs in Plan(present, classpathDir, setting)
    ensures Plan(AfterRun(present, classpathDir, setting, FailedBeforeOpen), classpathDir, setting) == [CopyLambdaStubs]
  {
    JarsDiffer(classpathDir);
    var after := AfterRun(present, classpathDir, setting, FailedBeforeOpen);
    assert AndroidJar(classpathDir) in after;
    assert LambdaStubsJar(classpathDir) !in after;
  }

  /** With no stored setting, or any version other than "8.0", the stubs are never copied. */
  lemma StubsOnlyForJava8(present: set<string>, classpathDir: string, setting: Option<string>, copy: CopyOutcome)
    requires setting.None? || setting.value != "8.0"
    ensures CopyLambdaStubs !in Plan(present, classpathDir, setting)
    ensures LambdaStubsJar(classpathDir) in AfterRun(present, classpathDir, setting, copy)
      <==> LambdaStubsJar(classpathDir) in present
  {
    JarsDiffer(classpathDir);
    if setting.None? {
      assert "7.0"[0] != "8.0"[0];
    }
  }
}
