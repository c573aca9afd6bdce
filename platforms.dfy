/** The platform record and the fixed catalog of supported platforms. */
module Platforms {
  import opened Base
  import opened Naming

  /** One target: Go's OS and architecture names, the Debian architecture
      (chroot directory and package qualifier), the suffix of the Debian
      cross-toolchain package and the cross-toolchain prefix. */
  datatype Platform = Platform(
    goOS: string,
    goArch: string,
    debianArch: string,
    aptPackageSuffix: string,
    gccArch: string)

  /** `supportedPlatforms`, in catalog order. */
  const SupportedPlatforms: seq<Platform> := [
    Platform("linux", "alpha", "alpha", "-alpha-linux-gnu", "alpha-linux-gnu"),
    Platform("linux", "ppc", "powerpc", "-powerpc-linux-gnu", "powerpc-linux-gnu"),
    Platform("linux", "ppc64", "ppc64", "-powerpc64-linux-gnu", "powerpc64-linux-gnu"),
    Platform("linux", "sparc64", "sparc64", "-sparc64-linux-gnu", "sparc64-linux-gnu"),
    Platform("linux", "riscv64", "riscv64", "-riscv64-linux-gnu", "riscv64-linux-gnu"),
    Platform("linux", "amd64", "amd64", "", "x86_64-linux-gnu"),
    Platform("linux", "arm64", "arm64", "-aarch64-linux-gnu", "aarch64-linux-gnu"),
    Platform("linux", "arm", "armel", "-arm-linux-gnueabi", "arm-linux-gnueabi"),
    Platform("linux", "arm", "armhf", "-arm-linux-gnueabihf", "arm-linux-gnueabihf"),
    Platform("linux", "386", "i386", "-i686-linux-gnu", "i686-linux-gnu"),
    Platform("linux", "mipsle", "mipsel", "-mipsel-linux-gnu", "mipsel-linux-gnu"),
    Platform("linux", "mips64le", "mips64el", "-mips64el-linux-gnuabi64", "mips64el-linux-gnuabi64"),
    Platform("linux", "ppc64le", "ppc64el", "-powerpc64le-linux-gnu", "powerpc64le-linux-gnu"),
    Platform("linux", "s390x", "s390x", "-s390x-linux-gnu", "s390x-linux-gnu")
  ]

  /** Index of the amd64 entry, the only one built with the host toolchain. */
  const Amd64Index := 5

  /** The catalog has fourteen targets, all of them Linux. */
  lemma CatalogLinux()
    ensures |SupportedPlatforms| == 14
    ensures forall p <- SupportedPlatforms :: p.goOS == "linux"
  {
  }

  /** Every field of a catalog entry but the package suffix is non-empty. */
  lemma CatalogFieldsNonEmpty()
    ensures forall p <- SupportedPlatforms ::
      p.goArch != "" && p.debianArch != "" && p.gccArch != ""
  {
  }

  /** Debian architecture names, hence chroot roots, are pairwise distinct. */
  lemma DebianArchesDistinct()
    ensures forall i, j :: 0 <= i < j < |SupportedPlatforms| ==>
      SupportedPlatforms[i].debianArch != SupportedPlatforms[j].debianArch
    ensures forall i, j :: 0 <= i < j < |SupportedPlatforms| ==>
      ChrootLocation(SupportedPlatforms[i].debianArch) != ChrootLocation(SupportedPlatforms[j].debianArch)
  {
    forall i, j | 0 <= i < j < |SupportedPlatforms|
      ensures SupportedPlatforms[i].debianArch != SupportedPlatforms[j].debianArch
    {
    }
    forall i, j | 0 <= i < j < |SupportedPlatforms|
      ensures ChrootLocation(SupportedPlatforms[i].debianArch) != ChrootLocation(SupportedPlatforms[j].debianArch)
    {
      ChrootLocationInjective(SupportedPlatforms[i].debianArch, SupportedPlatforms[j].debianArch);
    }
  }

  /** The package suffix is empty for the amd64 entry only. */
  lemma PackageSuffixEmpty()
    ensures forall i :: 0 <= i < |SupportedPlatforms| ==>
      (SupportedPlatforms[i].aptPackageSuffix == "" <==> i == Amd64Index)
    ensures SupportedPlatforms[Amd64Index].debianArch == "amd64"
  {
  }

  /** Every entry but amd64 uses the Debian cross-toolchain suffix "-" + its
      toolchain prefix. */
  lemma PackageSuffixRule()
    ensures forall i :: 0 <= i < |SupportedPlatforms| && i != Amd64Index ==>
      SupportedPlatforms[i].aptPackageSuffix == "-" + SupportedPlatforms[i].gccArch
  {
    forall i | 0 <= i < |SupportedPlatforms| && i != Amd64Index
      ensures SupportedPlatforms[i].aptPackageSuffix == "-" + SupportedPlatforms[i].gccArch
    {
      var p := SupportedPlatforms[i];
      assert p.aptPackageSuffix[1..] == p.gccArch;
    }
  }

  /** Which entries carry the Go architectures amd64 and arm. */
  lemma GoArchIndices()
    ensures forall i :: 0 <= i < |SupportedPlatforms| ==>
      (SupportedPlatforms[i].goArch == "amd64" <==> i == Amd64Index)
    ensures forall i :: 0 <= i < |SupportedPlatforms| ==>
      (SupportedPlatforms[i].goArch == "arm" <==> i == 7 || i == 8)
  {
  }

  /** No Go architecture name contains '/', the separator of the exclude subject. */
  lemma GoArchesWithoutSlash()
    ensures forall i, k :: 0 <= i < |SupportedPlatforms| && 0 <= k < |SupportedPlatforms[i].goArch| ==>
      SupportedPlatforms[i].goArch[k] != '/'
  {
  }

  /** Only the amd64 entry's Go architecture starts with "amd64". */
  lemma Amd64Prefix()
    ensures forall i :: 0 <= i < |SupportedPlatforms| ==>
      ("amd64" <= SupportedPlatforms[i].goArch <==> i == Amd64Index)
  {
    forall i | 0 <= i < |SupportedPlatforms|
      ensures "amd64" <= SupportedPlatforms[i].goArch <==> i == Amd64Index
    {
      var g := SupportedPlatforms[i].goArch;
      if "amd64" <= g {
        assert g[0] == 'a' && g[1] == 'm' && g[2] == 'd';
      }
      if i == Amd64Index {
        assert g[..5] == "amd64";
      }
    }
  }

  /** Three Go architectures start with "arm": arm64 (index 6) and the two arm entries. */
  lemma ArmPrefix()
    ensures forall i :: 0 <= i < |SupportedPlatforms| ==>
      ("arm" <= SupportedPlatforms[i].goArch <==> 6 <= i <= 8)
  {
    forall i | 0 <= i < |SupportedPlatforms|
      ensures "arm" <= SupportedPlatforms[i].goArch <==> 6 <= i <= 8
    {
      var g := SupportedPlatforms[i].goArch;
      if "arm" <= g {
        assert g[0] == 'a' && g[1] == 'r' && g[2] == 'm';
      }
      if 6 <= i <= 8 {
        assert g[..3] == "arm";
      }
    }
  }

  /** Only the first entry's Go architecture starts with "alpha". */
  lemma AlphaPrefix()
    ensures forall i :: 0 <= i < |SupportedPlatforms| ==>
      ("alpha" <= SupportedPlatforms[i].goArch <==> i == 0)
  {
    forall i | 0 <= i < |SupportedPlatforms|
      ensures "alpha" <= SupportedPlatforms[i].goArch <==> i == 0
    {
      var g := SupportedPlatforms[i].goArch;
      if "alpha" <= g {
        assert g[0] == 'a' && g[1] == 'l';
      }
      if i == 0 {
        assert g[..5] == "alpha";
      }
    }
  }

  /** The Debian name "ppc64el" starts no Go architecture; Go calls that
      target "ppc64le" (index 12), and only it starts with "ppc64le". */
  lemma Ppc64lePrefixes()
    ensures forall i :: 0 <= i < |SupportedPlatforms| ==> !("ppc64el" <= SupportedPlatforms[i].goArch)
    ensures forall i :: 0 <= i < |SupportedPlatforms| ==>
      ("ppc64le" <= SupportedPlatforms[i].goArch <==> i == 12)
  {
    forall i | 0 <= i < |SupportedPlatforms|
      ensures !("ppc64el" <= SupportedPlatforms[i].goArch)
      ensures "ppc64le" <= SupportedPlatforms[i].goArch <==> i == 12
    {
      var g := SupportedPlatforms[i].goArch;
      assert |g| < 7 || g[0] != 'p' || g[5] != 'e';
      if "ppc64le" <= g {
        assert g[0] == 'p' && g[3] == '6' && g[5] == 'l';
      }
      if i == 12 {
        assert g[..7] == "ppc64le";
      }
    }
  }

  /** (goOS, goArch) does not identify an entry: armel and armhf are both linux/arm. */
  lemma GoTargetsNotUnique()
    ensures SupportedPlatforms[7].goOS == SupportedPlatforms[8].goOS
    ensures SupportedPlatforms[7].goArch == SupportedPlatforms[8].goArch == "arm"
    ensures SupportedPlatforms[7].debianArch != SupportedPlatforms[8].debianArch
  {
  }

  /** No Debian architecture name contains ':', so every qualified package
      name of the catalog splits back into package and architecture. */
  lemma CatalogQualifiedNamesSplit(pkg: string)
    ensures forall p <- SupportedPlatforms ::
      SplitArchQualified(PkgNameForArch(pkg, p.debianArch)) == Some((pkg, p.debianArch))
  {
    forall i | 0 <= i < |SupportedPlatforms|
      ensures SplitArchQualified(PkgNameForArch(pkg, SupportedPlatforms[i].debianArch))
        == Some((pkg, SupportedPlatforms[i].debianArch))
    {
      var a := SupportedPlatforms[i].debianArch;
      assert forall k :: 0 <= k < |a| ==> a[k] != ':';
      PkgNameForArchRoundTrip(pkg, a);
    }
  }
}
